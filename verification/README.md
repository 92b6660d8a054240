# Agentic RAG — a Dafny model of the query loop and of document chunking

This project models the core of an "agentic" retrieval-augmented generation
system. It has two parts.

* `AgenticRAG.query` (`src/agentic_rag.py`):
  1. It plans the query with a language model; a failed call falls back to
     "treat as simple".
  2. It searches the vector store for every planned query, keeps the first
     document of each text, and caps the context at `k*2` documents.
  3. It answers from that context.
  4. Then, for up to `max_iterations - 1` passes, it asks the model whether
     the answer is complete. It stops when the model asks for no refinement
     or gives no refinement query. Otherwise it searches the refinement query
     with `k // 2`, appends the documents whose text it has not seen, and
     answers again from the first `k*2` documents.
  5. The result holds the answer, the sources, the documents, the iteration
     log and the plan.
* `split_text` and `chunk_documents` (`src/document_loader.py`):
  * `split_text` cuts the words of a text into windows of `chunk_size` words
    whose starts are `chunk_size - overlap` apart, dropping empty windows.
  * `chunk_documents` labels each chunk with its document's source and its
    position in that document.

The language model and the vector store's `search` are oracles. They are
fields of `AgenticRag` (`RagModel`), and the proofs hold for every oracle.
Where a property needs the vector store's own promise, it is stated under
`StoreSearch`:
* an empty index returns nothing;
* otherwise `search(q, n)` returns `min(n, ntotal)` results
  (`src/vector_store.py:61-69`).

Layout, one module per file:
* `Wrappers`: `Option`, `Result`.
* `Builtins`:
  * Python slicing, with negative bounds;
  * `join`, and `str.split()` with no argument;
  * `str(n)`.
* `DocumentLoader`: chunking, as specification functions and the source's loops as methods.
* `DocumentLoaderProofs`: the chunking properties, including the round trip
  from chunks back to words.
* `RagModel`: the entities.
* `Aggregation`: search results, the seen texts and sources, and order-preserving deduplication.
* `Prompts`: the three prompts and their fallbacks.
* `PromptsProofs`: what the prompts contain, and the fallbacks.
* `Orchestrator`: the query loop.
  * Specification functions: `InitialState`, `Pass`, `RefineFrom`, `QueryOutcome`.
  * The source's loops, as methods proved equal to them: `SearchAll`,
    `RemoveDuplicates`, `MergeAdditional`, `RefinementPass`,
    `RefinementLoop`, `Query`.
* `OrchestratorProofs`: properties of the loop and of `query`'s result.

## Model

| member | source | states |
|---|---|---|
| Orchestrator.QueriesToSearch | src/agentic_rag.py:223 | the queries searched: the plan's sub-queries (none when the key is missing) when `needs_decomposition` is true, else the query alone |
| Orchestrator.Primary | src/agentic_rag.py:223-230 | every primary search result with fan-out k, query after query |
| Orchestrator.FirstWindow | src/agentic_rag.py:232-240 | the deduplicated primary results cut to `[:k*2]` |
| Orchestrator.InitialState | src/agentic_rag.py:210-251 | the loop variables after the first answer: the first window, every primary text seen, every primary source, one record for pass 0 and its answer |
| Orchestrator.RefinementSearch | src/agentic_rag.py:273 | `search(refinement_query, k // 2)`; `//` by 2 floors as Dafny's `/` by a positive divisor does |
| Orchestrator.Refined | src/agentic_rag.py:272-292 | a refining pass: the unseen refinement results appended, all their texts seen, the appended ones' sources added, a new answer from the first 2k documents, and the pass logged with its query |
| Orchestrator.Pass | src/agentic_rag.py:258-292 | one pass: no state (break) when the assessment stops the loop (`Stops`), else `Refined` with the assessment's refinement query |
| Orchestrator.RefineFrom | src/agentic_rag.py:254-292 | the passes from `iteration` up to `max_iterations - 1`, ending at the first break |
| Orchestrator.FinalState | src/agentic_rag.py:210-292 | the loop variables when the refinement loop ends |
| Orchestrator.QueryOutcome | src/agentic_rag.py:294-301 | the returned record: last answer, sources, documents, log, plan, and the document count |
| Orchestrator.Query | src/agentic_rag.py:198-301 | `query` returns exactly `QueryOutcome`: plan, primary searches, dedup and cap, first answer, refinement loop, result record |
| Orchestrator.SearchAll | src/agentic_rag.py:225-230 | the search loop returns every query's results concatenated in query order (`Retrieved`), and the sources of exactly those documents |
| Orchestrator.RemoveDuplicates | src/agentic_rag.py:232-238 | the dedup loop returns `Dedup(docs, {})` (the first document of each text, in order; see `DedupIsFirsts`) and the set of all texts seen |
| Orchestrator.MergeStep | src/agentic_rag.py:276-280 | one merge step appends the next document, with its text and source, exactly when its text is unseen, and keeps the merge relation |
| Orchestrator.MergeAdditional | src/agentic_rag.py:276-280 | the merge appends `Dedup(additional, seen)` to the documents, adds every additional text to the seen set and adds the sources of the appended documents only |
| Orchestrator.RefinementPass | src/agentic_rag.py:258-292 | a pass reports a break exactly when the assessment has no truthy `needs_refinement` or no non-empty `refinement_query`; otherwise its new state is `Pass`'s |
| Orchestrator.RefinementLoop | src/agentic_rag.py:254-292 | the `for iteration in range(1, max_iterations)` loop with its breaks ends in `RefineFrom(start, 1)` |
| OrchestratorProofs.QueryLog | src/agentic_rag.py:247-301 | the log has between 1 and max(1, max_iterations) records, numbered 0, 1, ...; only record 0 lacks a refinement query and the others carry a non-empty one; the answer is the last record's; `total_docs_used` equals the number of documents returned and the last record's count; the plan returned is the plan made |
| OrchestratorProofs.QueryDocs | src/agentic_rag.py:232-280 | the returned documents start with the capped primary window; all their texts are distinct; no later document has the text of any primary result, including results cut by the cap; the sources are those of every primary result plus those of the appended documents |
| OrchestratorProofs.QueryAnswerWindow | src/agentic_rag.py:283-286 | for k >= 0 the returned answer is the one generated on the last pass from the first 2k returned documents |
| OrchestratorProofs.QueryAnswers | src/agentic_rag.py:243-291 | for k >= 0, every logged answer i was generated on pass i from the first min(docs_retrieved, 2k) returned documents, those gathered when it was logged |
| OrchestratorProofs.QueryStopsIff | src/agentic_rag.py:254-267 | with a budget of at least one refinement pass, `query` logs only its first answer if and only if the first assessment stops the loop |
| OrchestratorProofs.QueryFullBudget | src/agentic_rag.py:254 | when every assessment asks for a refinement with a non-empty query, the log has exactly max(1, max_iterations) records |
| OrchestratorProofs.QueryGrowth | src/agentic_rag.py:240-280 | over a store that returns min(n, ntotal) results, at most 2k documents are returned plus k // 2 per refinement pass logged, and so at most 2k + (max(1, max_iterations) - 1) · (k // 2) |
| OrchestratorProofs.BudgetIs | src/agentic_rag.py:273 | the per-pass budget of `QueryGrowth` summed over p passes is p · step |
| OrchestratorProofs.QueryEmptyStore | src/vector_store.py:61-62 | over an empty index `query` returns no documents, no sources and a document count of 0 |
| OrchestratorProofs.RetrievedFromEmpty | src/vector_store.py:61-62 | over an empty index every search, and so every batch of searches, returns nothing |
| OrchestratorProofs.RefineEmptyStore | src/vector_store.py:61-62 | over an empty index the refinement passes change neither the documents nor the sources |
| OrchestratorProofs.QueryPlanFallback | src/agentic_rag.py:76-82 | when the planning call raises with message e, the plan returned is the fallback (no decomposition, reasoning "Planning failed: " + e, no sub-queries) and only the query itself is searched |
| OrchestratorProofs.QueryEmptyDecomposition | src/agentic_rag.py:223-251 | a plan that asks for decomposition with no sub-queries searches nothing: the first window is empty and the first answer is generated from no documents |
| OrchestratorProofs.QueryFirstWindow | src/agentic_rag.py:232-240 | the primary context is the first 2k first-occurrences of the primary results (at most 2k documents when k >= 0) |
| OrchestratorProofs.RefinePreviewStable | src/agentic_rag.py:100 | once three documents are in, no later pass changes the reflection preview |
| OrchestratorProofs.RefineLogged | src/agentic_rag.py:287-292 | the loop keeps the log well formed: records numbered by position, record 0 without a refinement query and every later one with a non-empty one, the last record holding the current answer and document count |
| OrchestratorProofs.RefineAnswered | src/agentic_rag.py:283-286 | after any number of passes, the current answer is the one generated on the latest pass from the first 2k documents |
| OrchestratorProofs.RefinedWindowed | src/agentic_rag.py:276-291 | a refining pass only appends, so every earlier record's window is kept, and it logs its own answer with its own window |
| OrchestratorProofs.RefineWindowed | src/agentic_rag.py:254-292 | after any number of passes, every logged answer comes from the first 2k of the documents gathered when it was logged |
| OrchestratorProofs.InitialWindowed | src/agentic_rag.py:240-251 | the first answer comes from the primary window, which the 2k cap leaves as it is |
| OrchestratorProofs.RefineTracked | src/agentic_rag.py:276-280 | the loop only appends documents; their texts stay distinct and unseen before; the sources grow by exactly the appended documents' sources |
| OrchestratorProofs.RefineGrowth | src/agentic_rag.py:273-280 | over a store that returns min(n, ntotal) results, each pass appends at most k // 2 documents |
| OrchestratorProofs.RefineStopsIff | src/agentic_rag.py:258-267 | with a pass left in the budget, the loop adds no record if and only if its first assessment stops it |
| OrchestratorProofs.RefineFull | src/agentic_rag.py:254 | when no assessment stops the loop, it runs every remaining pass of its budget |
| OrchestratorProofs.RefineBounded | src/agentic_rag.py:254 | the loop adds at most one record per remaining pass of its budget |
| Aggregation.Texts | src/agentic_rag.py:243 | `[doc['text'] for doc in docs]` |
| Aggregation.SourceList | src/agentic_rag.py:244 | `[doc['source'] for doc in docs]` |
| Aggregation.TextSet | src/agentic_rag.py:236-237 | the set of the documents' texts |
| Aggregation.SourcesOf | src/agentic_rag.py:230 | the set of the documents' sources |
| Aggregation.Retrieved | src/agentic_rag.py:225-229 | the results of searching each query, concatenated in query order |
| Aggregation.Dedup | src/agentic_rag.py:232-238 | the documents whose text is neither already seen nor an earlier document's, in order; `DedupIsFirsts` and `DedupDistinct` state what this means |
| Aggregation.DedupDistinct | src/agentic_rag.py:233-238 | deduplication keeps pairwise-distinct texts, none of them already seen, loses no unseen text, and keeps at most as many documents as it is given |
| Aggregation.DedupIsFirsts | src/agentic_rag.py:232-238 | deduplication is exactly the first occurrence of every unseen text, in the original order (reference definition `Firsts`) |
| Aggregation.DedupSnoc | src/agentic_rag.py:235-238 | one more document is kept exactly when its text is neither seen nor earlier |
| Aggregation.SetsAppend | src/agentic_rag.py:229-230 | the texts and sources of concatenated result lists are the unions of their texts and sources |
| RagModel.StoreSearch | src/vector_store.py:61-69 | the vector store's result count: nothing from an empty index, otherwise min(n, ntotal) results; the premise of `QueryGrowth`, `RefineGrowth` and `QueryEmptyStore` |
| Prompts.SourceWording | src/agentic_rag.py:49-182 | the fixed text of the planning prompt (lines 49-61), the reflection prompt (102-121) and the two answer templates (165-182); `SourceIntrosDiffer` proves the templates start differently |
| Prompts.PlanPrompt | src/agentic_rag.py:49-61 | the planning prompt around the query |
| Prompts.PlanFailed | src/agentic_rag.py:76-82 | the fallback plan for a failed call with message e: no decomposition, reasoning "Planning failed: " + e, no sub-queries |
| Prompts.PlanQuery | src/agentic_rag.py:39-82 | `_plan_query`: the parsed plan, or `PlanFailed(e)` when the call raises with message e |
| Prompts.PreviewLines | src/agentic_rag.py:100 | `[doc['text'][:200] for doc in retrieved_docs[:3]]`: one line per document of the first three, cut to 200 characters (`PreviewBound`, `PreviewOfFirstThree`) |
| Prompts.ContextPreview | src/agentic_rag.py:100 | the first 200 characters of each of the first three documents, joined by newlines (`PreviewBound`) |
| Prompts.ReflectionPrompt | src/agentic_rag.py:102-121 | the reflection prompt around the query, the answer and the preview |
| Prompts.AssumeComplete | src/agentic_rag.py:138-144 | the fallback assessment: complete, confidence "medium", nothing missing, no refinement and an empty refinement query (`AssessFallback`) |
| Prompts.CheckCompleteness | src/agentic_rag.py:88-144 | `_check_completeness`: the parsed assessment of the reflection prompt over the preview of the documents, or the "assume complete" assessment when the call raises (`AssessFallback`) |
| Prompts.Stops | src/agentic_rag.py:260-267 | the loop's break test: `needs_refinement` false or missing, or `refinement_query` empty or missing (`RefineStopsIff`, `QueryStopsIff`, `AssessFallback`) |
| Prompts.BlockHeader | src/agentic_rag.py:160 | the header "Context i+1 (from source):" and a newline of block i (`BlockNumbered`) |
| Prompts.ContextBlocks | src/agentic_rag.py:159-161 | one block per context, headed by its number and the source at the same position, in order (`BlockNumbered`, `ContextShowsDoc`) |
| Prompts.ContextText | src/agentic_rag.py:159-162 | the numbered "Context i+1 (from source):" blocks joined by blank lines (`ContextShowsDoc`, `BlockNumbered`) |
| Prompts.AnswerPrompt | src/agentic_rag.py:164-182 | the refining template on a pass after the first, the first template otherwise (`AnswerTemplate`, `AnswerShows`) |
| Prompts.GenerateAnswer | src/agentic_rag.py:146-196 | `_generate_answer`: the model's reply to the answer prompt over the context text, or "Error generating answer: " + message when the call raises (`AnswerFallback`) |
| Prompts.AnswerFrom | src/agentic_rag.py:243-246 | the answer generated from a list of documents: their texts as contexts and their sources |
| PromptsProofs.ContextShowsDoc | src/agentic_rag.py:159-162 | for each document answered from, the block "Context i+1 (from its source):" followed by its own text occurs in the context |
| PromptsProofs.BlockNumbered | src/agentic_rag.py:160 | block i's header is "Context ", decimal digits that parse back to i + 1, " (from ", the source, "):" and a newline |
| PromptsProofs.ContextOfNothing | src/agentic_rag.py:159-162 | without documents the context text is empty |
| PromptsProofs.AnswerTemplate | src/agentic_rag.py:164-182 | the refining template (followed by the pass number) is used if and only if the pass is after the first; the first template exactly otherwise |
| PromptsProofs.SourceIntrosDiffer | src/agentic_rag.py:165-175 | the two templates start differently, so `AnswerTemplate` applies to the source's wording |
| PromptsProofs.AnswerShows | src/agentic_rag.py:164-182 | both templates contain the context and the question; the refining one also contains the pass number |
| PromptsProofs.ReflectionShows | src/agentic_rag.py:102-121 | the reflection prompt contains the query, the answer under review and the preview |
| PromptsProofs.PlanShows | src/agentic_rag.py:49-61 | the planning prompt contains the query |
| PromptsProofs.PreviewBound | src/agentic_rag.py:100 | the preview has one line per document for at most three documents, each line the first min(200, length) characters of its text, so at most 602 characters |
| PromptsProofs.PreviewOfFirstThree | src/agentic_rag.py:100 | documents after the third never reach the reflection prompt |
| PromptsProofs.AnswerFallback | src/agentic_rag.py:195-196 | a failed answer call yields "Error generating answer: " followed by exactly the exception's message |
| PromptsProofs.AssessFallback | src/agentic_rag.py:136-144 | a failed reflection call gives the assessment complete, confidence "medium", nothing missing, no refinement and an empty refinement query, which makes the loop stop |
| DocumentLoader.Range | src/document_loader.py:73 | `range(start, stop, step)` for a positive step |
| DocumentLoader.Window | src/document_loader.py:74 | `' '.join(words[start:start + chunk_size])` (`WindowIsSlice`) |
| DocumentLoader.Windows | src/document_loader.py:73-74 | the candidate chunk at each start, in order, one per start |
| DocumentLoader.NonEmpty | src/document_loader.py:75-76 | the candidates that pass `if chunk`, in order, never more than there are candidates |
| DocumentLoader.WordChunks | src/document_loader.py:71-78 | the chunks of a word list: a zero stride raises as `range` does, a negative stride gives none, else the non-empty windows |
| DocumentLoader.TextChunks | src/document_loader.py:58-78 | `split_text`: the chunks of `text.split()` |
| DocumentLoader.KeptFrom | src/document_loader.py:73-76 | the chunks the loop keeps from one start on, start by start (`KeptFromWindows`) |
| DocumentLoader.ChunkList | src/document_loader.py:96 | the chunks of one document's text; the error case, which `chunk_documents` never gets past, gives none |
| DocumentLoader.ChunkLists | src/document_loader.py:95-96 | the chunks of each document, in document order, one list per document |
| DocumentLoader.Labelled | src/document_loader.py:98-103 | one record per chunk with the document's source and index 0, 1, ..., as many as there are chunks |
| DocumentLoader.Flatten | src/document_loader.py:95-103 | the labelled chunk records of all documents, document after document (`FlattenCount`, `FlattenPlacement`) |
| DocumentLoader.AllChunks | src/document_loader.py:93-105 | the labelled chunks of every document |
| DocumentLoader.DocumentChunks | src/document_loader.py:81-105 | `chunk_documents`: it raises exactly when there is a document and chunk_size == overlap, and otherwise returns `AllChunks` (`ChunkDocumentsOutcome`) |
| DocumentLoader.SplitText | src/document_loader.py:58-78 | `split_text` returns exactly `TextChunks`: an error for a zero stride, nothing for a negative stride, else the non-empty windows |
| DocumentLoader.ChunkWords | src/document_loader.py:73-78 | the strided loop over the words returns `WordChunks` |
| DocumentLoader.KeepWindows | src/document_loader.py:73-76 | the while loop over the starts 0, step, 2·step, ... keeps the non-empty windows in order |
| DocumentLoader.KeepWindow | src/document_loader.py:74-76 | the loop body appends the window at the current start exactly when it is non-empty |
| DocumentLoader.KeptFromWindows | src/document_loader.py:73-76 | keeping windows start by start equals filtering the windows of `range(start, len(words), step)` |
| DocumentLoader.AppendLabelled | src/document_loader.py:98-103 | the inner loop appends one record per chunk, with the document's source and indices 0, 1, ... |
| DocumentLoader.ChunkDocuments | src/document_loader.py:81-105 | `chunk_documents` returns `DocumentChunks`: every document's labelled chunks, document after document |
| DocumentLoaderProofs.WindowIsSlice | src/document_loader.py:74 | the window is the join of the Python slice `words[start:start + chunk_size]` |
| DocumentLoaderProofs.RangeCount | src/document_loader.py:73 | `range(0, n, step)` has ceil(n / step) elements |
| DocumentLoaderProofs.RangeAt | src/document_loader.py:73 | the k-th start is k · step |
| DocumentLoaderProofs.RangeCovers | src/document_loader.py:73 | every word index lies in [start, start + step) for some start of the range |
| DocumentLoaderProofs.WindowWords | src/document_loader.py:74 | for a positive chunk size, the window at a start below the word count is non-empty and splits back into its 1 to chunk_size words |
| DocumentLoaderProofs.WindowsAreChunks | src/document_loader.py:73-76 | for 0 <= overlap < chunk_size no window is empty, so the chunks are exactly the windows |
| DocumentLoaderProofs.ChunksAreWindows | src/document_loader.py:70-76 | the same for `split_text` on any text |
| DocumentLoaderProofs.ChunkAt | src/document_loader.py:73-76 | chunk j is the join of words[j·step : j·step + chunk_size], non-empty, with 1 to chunk_size words |
| DocumentLoaderProofs.ChunkPerStart | src/document_loader.py:73-76 | there is one chunk per start index |
| DocumentLoaderProofs.SplitTextCount | src/document_loader.py:58-78 | for 0 <= overlap < chunk_size, `split_text` succeeds with ceil(words / step) chunks |
| DocumentLoaderProofs.ChunkingEdgeCases | src/document_loader.py:70-78 | a zero stride is exactly the error case; a negative stride or a blank text gives no chunks; for 0 <= overlap < chunk_size, no chunks if and only if the text is blank |
| DocumentLoaderProofs.Coverage | src/document_loader.py:73-76 | every word of the text is word i % step of chunk i / step |
| DocumentLoaderProofs.RoundTrip | src/document_loader.py:73-76 | splitting the chunks and dropping each later chunk's first `overlap` words gives back the words |
| DocumentLoaderProofs.WindowsRoundTrip | src/document_loader.py:73-76 | the same round trip for the windows of any positive stride not above the chunk size |
| DocumentLoaderProofs.TextRoundTrip | src/document_loader.py:58-78 | the round trip gives back `text.split()` |
| DocumentLoaderProofs.FlattenCount | src/document_loader.py:95-103 | one record is emitted per chunk |
| DocumentLoaderProofs.FlattenPlacement | src/document_loader.py:95-103 | chunk j of document i sits at position (chunks of earlier documents) + j, with that document's source and index j |
| DocumentLoaderProofs.ChunkDocumentsOutcome | src/document_loader.py:81-105 | `chunk_documents` fails if and only if there is a document and chunk_size == overlap; otherwise it returns one record per chunk |
| DocumentLoaderProofs.ChunkDocumentsPlacement | src/document_loader.py:95-103 | each chunk of each document appears as its own record, at its place, with its source and index |
| Builtins.SliceBound | src/document_loader.py:74 | a slice bound as Python normalises it: a negative bound counts from the end, then it is clamped to [0, len] |
| Builtins.Slice | src/document_loader.py:74 | `s[lo:hi]` with Python's bounds |
| Builtins.SliceClamped | src/document_loader.py:74 | with bounds that are not negative, `s[lo:hi]` is the part of s between min(lo, len) and min(hi, len) |
| Builtins.Prefix | src/agentic_rag.py:240 | `s[:n]` is always a prefix of s, the first min(n, len) elements when n >= 0 |
| Builtins.Join | src/document_loader.py:74 | `sep.join(parts)` |
| Builtins.IsSpace | src/document_loader.py:70 | the separators of `str.split()` with no argument: the characters Python's `str.isspace` accepts (`SplitGivesWords`) |
| Builtins.Split | src/document_loader.py:70 | `str.split()` with no argument: the maximal runs of non-whitespace characters, in order (`SplitGivesWords`, `SplitJoin`, `SplitEmptyIff`) |
| Builtins.NatToString | src/agentic_rag.py:160 | `str(n)` for a natural number: its decimal digits (`ParseNatToString`) |
| Builtins.SplitJoin | src/document_loader.py:70-74 | splitting the space-join of whitespace-free, non-empty words gives them back |
| Builtins.SplitGivesWords | src/document_loader.py:70 | `str.split()` yields non-empty words without whitespace |
| Builtins.SplitEmptyIff | src/document_loader.py:70 | `str.split()` is empty if and only if the text is all whitespace |
| Builtins.JoinShowsPart | src/agentic_rag.py:159 | every part occurs in the join |
| Builtins.JoinLengthBound | src/agentic_rag.py:100 | a join of parts of at most b characters is at most count · (b + separator) − separator long |
| Builtins.ParseNatToString | src/agentic_rag.py:160 | the decimal rendering of a natural number parses back to it |

## Left out

- The vector store (embedding, FAISS, `add_documents`) is not part of this
  model. `search` is an oracle. Its count promise (`StoreSearch`) covers
  n >= 0 only: `query` never passes a negative count for k >= 0, and FAISS
  rejects a negative count.
- `StoreSearch`'s case n = 0 is an assumption. With k = 1 the refinement
  search asks for `k // 2 = 0` results (`src/vector_store.py:69-70`), and
  what FAISS does with a count of 0 is not part of this model: it may raise
  rather than return nothing. `QueryGrowth` and `RefineGrowth` take "no
  results" for that call. Over an empty index (`QueryEmptyStore`,
  `RefineEmptyStore`) the search returns before FAISS is called
  (`src/vector_store.py:61-62`), so those two do not depend on it.
- The Python default arguments (`query(k=5)`, `max_iterations=3`,
  `chunk_size=500`, `overlap=50`; `src/agentic_rag.py:20,198`,
  `src/document_loader.py:58,81`) are not modelled: every parameter is
  explicit in the model, and the properties hold for every value, the
  defaults included.
- The language model and `json.loads` are oracles that either return or
  raise. The parsed JSON is abstracted to typed fields that are either
  missing or present:
  - `needs_decomposition` and `needs_refinement` are `Option<bool>`. Python
    truthiness of other JSON values (numbers, strings) is not modelled.
  - `sub_queries` is `Option<seq<string>>`. A JSON `null` there, which makes
    the source raise when it iterates, is not modelled.
  - `refinement_query` is `Option<string>`.
- The system messages, the model name and the temperature of the model calls
  are left out: they only reach the oracle.
- The generator oracle also receives the pass number for the reflection and
  answer calls. This lets one prompt get different replies on different
  passes, as a real model may; the source does not pass it.
- The prompt wording is a parameter (`Wording`). `Prompts.SourceWording` holds
  the source's own text. The lemmas hold for any wording, except
  `AnswerTemplate`: it requires the two answer templates to start with
  different characters (`DistinctIntros`), which `SourceIntrosDiffer` proves
  of the source's wording.
- `list(all_sources)` has no specified order, so the sources are a set.
- `is_complete`, `confidence` and `missing_aspects` are modelled in
  `Assessment`, but `query` never consults them. `reasoning` in the plan
  likewise.
- `load_documents`, `simple_rag.py` and `main.py` are not part of this model.
  Neither are the environment check, `dotenv`, and the `verbose` printing.
- OrchestratorProofs.QueryGrowth: the product bound is stated with `Budget`.
  `BudgetIs` proves it equal to (passes · k // 2).
- Documents appended by a refinement pass are never re-capped: the source
  keeps all of them in `retrieved_docs` and only cuts the answer's context to
  `[:k*2]`. The model follows the code; `QueryDocs` and `QueryGrowth` state
  the consequences.
- The sources reported include the sources of primary results that the cap
  cut off, and their texts stay in `seen_texts`. The model follows the code;
  `QueryDocs` states it.
