/**
 * `AgenticRAG.query`: plan, search every planned query, remove duplicate
 * texts, cap the context at 2k documents, answer, then up to
 * `max_iterations - 1` passes of reflect, refine the search, merge the new
 * documents and answer again.
 */
module Orchestrator {
  import opened Wrappers
  import opened Builtins
  import opened DocumentLoader
  import opened RagModel
  import opened Aggregation
  import opened Prompts

  /** `queries_to_search`: the sub-queries when the plan asks for decomposition, else the query itself. */
  function QueriesToSearch(plan: Plan, query: string): seq<string>
  {
    if plan.needsDecomposition == Some(true) then plan.subQueries.GetOr([]) else [query]
  }

  /** The variables the refinement loop updates: `all_retrieved_docs`, `seen_texts`, `all_sources`, `iterations_used`, `answer`. */
  datatype LoopState = LoopState(
    docs: seq<Doc>,
    seen: set<string>,
    sources: set<string>,
    log: seq<IterationRecord>,
    answer: string)

  /** Everything the primary searches return, before deduplication. */
  function Primary(rag: AgenticRag, query: string, k: int): seq<Doc>
  {
    Retrieved(rag.search, QueriesToSearch(PlanQuery(rag, query), query), k)
  }

  /** The primary context: the deduplicated primary results cut to `[:k*2]`. */
  function FirstWindow(rag: AgenticRag, query: string, k: int): seq<Doc>
  {
    Prefix(Dedup(Primary(rag, query, k), {}), k * 2)
  }

  /** The state after the first answer. */
  function InitialState(rag: AgenticRag, query: string, k: int): LoopState
  {
    var retrieved := Primary(rag, query, k);
    var docs := FirstWindow(rag, query, k);
    var answer := AnswerFrom(rag, query, docs, 0);
    LoopState(docs, TextSet(retrieved), SourcesOf(retrieved), [IterationRecord(0, |docs|, None, answer)], answer)
  }

  /** The refinement search: `search(refinement_query, k // 2)`; Python's `//` by 2 floors, as `/` by a positive divisor does. */
  function RefinementSearch(rag: AgenticRag, refinementQuery: string, k: int): seq<Doc>
  {
    rag.search(refinementQuery, k / 2)
  }

  /**
   * The state after a pass that refines with `refinementQuery`: the unseen
   * documents of the refinement search appended, their texts seen and their
   * sources collected, a new answer from the first 2k documents, and the pass
   * logged.
   */
  function Refined(rag: AgenticRag, query: string, k: int, st: LoopState, iteration: int, refinementQuery: string): LoopState
  {
    var additional := RefinementSearch(rag, refinementQuery, k);
    var added := Dedup(additional, st.seen);
    var docs := st.docs + added;
    var answer := AnswerFrom(rag, query, Prefix(docs, k * 2), iteration);
    LoopState(
      docs,
      st.seen + TextSet(additional),
      st.sources + SourcesOf(added),
      st.log + [IterationRecord(iteration, |docs|, Some(refinementQuery), answer)],
      answer)
  }

  /** Pass `iteration` of the refinement loop from `st`: `None` when the loop breaks. */
  function Pass(rag: AgenticRag, query: string, k: int, st: LoopState, iteration: int): Option<LoopState>
  {
    var assessment := CheckCompleteness(rag, query, st.answer, st.docs, iteration);
    if Stops(assessment) then None
    else Some(Refined(rag, query, k, st, iteration, assessment.refinementQuery.GetOr("")))
  }

  /** The refinement loop from pass `iteration` on: passes run until one breaks or the budget is spent. */
  function RefineFrom(rag: AgenticRag, query: string, k: int, st: LoopState, iteration: int): LoopState
    decreases rag.maxIterations - iteration
  {
    if iteration >= rag.maxIterations then st
    else
      match Pass(rag, query, k, st, iteration)
      case None => st
      case Some(next) => RefineFrom(rag, query, k, next, iteration + 1)
  }

  /** The state when the loop ends. */
  function FinalState(rag: AgenticRag, query: string, k: int): LoopState
  {
    RefineFrom(rag, query, k, InitialState(rag, query, k), 1)
  }

  /** What `query(query, k)` returns. */
  function QueryOutcome(rag: AgenticRag, query: string, k: int): QueryResult
  {
    var st := FinalState(rag, query, k);
    QueryResult(st.answer, st.sources, st.docs, st.log, PlanQuery(rag, query), |st.docs|)
  }

  // ---------------------------------------------------------------- methods

  /** The primary searches: every result list is appended and its sources collected. */
  method SearchAll(search: (string, int) -> seq<Doc>, queries: seq<string>, k: int)
    returns (allRetrievedDocs: seq<Doc>, allSources: set<string>)
    ensures allRetrievedDocs == Retrieved(search, queries, k)
    ensures allSources == SourcesOf(allRetrievedDocs)
  {
    allRetrievedDocs := [];
    allSources := {};
    for i := 0 to |queries|
      invariant allRetrievedDocs == Retrieved(search, queries[..i], k)
      invariant allSources == SourcesOf(allRetrievedDocs)
    {
      var docs := search(queries[i], k);
      SetsAppend(allRetrievedDocs, docs);
      allRetrievedDocs := allRetrievedDocs + docs;
      allSources := allSources + SourcesOf(docs);
      assert queries[..i + 1][..i] == queries[..i];
    }
    assert queries[..|queries|] == queries;
  }

  /** The removal of duplicates after the primary searches: keep each text's first document. */
  method RemoveDuplicates(docs: seq<Doc>) returns (seenTexts: set<string>, uniqueDocs: seq<Doc>)
    ensures uniqueDocs == Dedup(docs, {})
    ensures seenTexts == TextSet(docs)
  {
    seenTexts := {};
    uniqueDocs := [];
    for i := 0 to |docs|
      invariant uniqueDocs == Dedup(docs[..i], {})
      invariant seenTexts == TextSet(docs[..i])
    {
      var doc := docs[i];
      assert docs[..i + 1] == docs[..i] + [doc];
      SetsSnoc(docs[..i], doc);
      if doc.text !in seenTexts {
        seenTexts := seenTexts + {doc.text};
        uniqueDocs := uniqueDocs + [doc];
      }
    }
    assert docs[..|docs|] == docs;
  }

  /** The merge state after the first `i` additional documents. */
  predicate Merged(base: seq<Doc>, seenTexts: set<string>, baseSources: set<string>, additional: seq<Doc>, i: nat,
                   docs: seq<Doc>, seen: set<string>, sources: set<string>)
    requires i <= |additional|
  {
    var kept := Dedup(additional[..i], seenTexts);
    docs == base + kept && seen == seenTexts + TextSet(additional[..i]) && sources == baseSources + SourcesOf(kept)
  }

  /** One step of the merge: the next document is appended, with its text and source, exactly when its text is unseen. */
  lemma MergeStep(base: seq<Doc>, seenTexts: set<string>, baseSources: set<string>, additional: seq<Doc>, i: nat,
                  docs: seq<Doc>, seen: set<string>, sources: set<string>)
    requires i < |additional|
    requires Merged(base, seenTexts, baseSources, additional, i, docs, seen, sources)
    ensures var d := additional[i];
            if d.text in seen then Merged(base, seenTexts, baseSources, additional, i + 1, docs, seen, sources)
            else Merged(base, seenTexts, baseSources, additional, i + 1, docs + [d], seen + {d.text}, sources + {d.source})
  {
    var d := additional[i];
    var kept := Dedup(additional[..i], seenTexts);
    assert additional[..i + 1][..i] == additional[..i];
    SetsSnoc(additional[..i], d);
    assert additional[..i + 1] == additional[..i] + [d];
    if d.text !in seen {
      SetsSnoc(kept, d);
    }
  }

  /** The merge of a refinement search: append each document whose text is unseen, noting its text and source. */
  method MergeAdditional(allRetrievedDocs: seq<Doc>, seenTexts: set<string>, allSources: set<string>, additionalDocs: seq<Doc>)
    returns (docs: seq<Doc>, seen: set<string>, sources: set<string>)
    ensures docs == allRetrievedDocs + Dedup(additionalDocs, seenTexts)
    ensures seen == seenTexts + TextSet(additionalDocs)
    ensures sources == allSources + SourcesOf(Dedup(additionalDocs, seenTexts))
  {
    docs, seen, sources := allRetrievedDocs, seenTexts, allSources;
    assert additionalDocs[..0] == [];
    for i := 0 to |additionalDocs|
      invariant Merged(allRetrievedDocs, seenTexts, allSources, additionalDocs, i, docs, seen, sources)
    {
      var doc := additionalDocs[i];
      MergeStep(allRetrievedDocs, seenTexts, allSources, additionalDocs, i, docs, seen, sources);
      if doc.text !in seen {
        seen := seen + {doc.text};
        docs := docs + [doc];
        sources := sources + {doc.source};
      }
    }
    assert additionalDocs[..|additionalDocs|] == additionalDocs;
  }

  /**
   * One pass of the refinement loop: reflect; break (`done`) when the
   * assessment asks for no refinement or gives no refinement query; otherwise
   * search, merge, answer again over the first 2k documents and log the pass.
   */
  method RefinementPass(rag: AgenticRag, query: string, k: int, iteration: int, st: LoopState)
    returns (done: bool, next: LoopState)
    ensures done <==> Pass(rag, query, k, st, iteration).None?
    ensures !done ==> Pass(rag, query, k, st, iteration) == Some(next)
  {
    next := st;
    var assessment := CheckCompleteness(rag, query, st.answer, st.docs, iteration);
    if !assessment.needsRefinement.GetOr(false) {
      return true, next;
    }
    var refinementQuery := assessment.refinementQuery.GetOr("");
    if refinementQuery == "" {
      return true, next;
    }
    var additionalDocs := rag.search(refinementQuery, k / 2);
    var allRetrievedDocs, seenTexts, allSources := MergeAdditional(st.docs, st.seen, st.sources, additionalDocs);
    var window := Prefix(allRetrievedDocs, k * 2);
    var contexts := Texts(window);
    var sourcesList := SourceList(window);
    var answer := GenerateAnswer(rag, query, contexts, sourcesList, iteration);
    var iterationsUsed := st.log + [IterationRecord(iteration, |allRetrievedDocs|, Some(refinementQuery), answer)];
    next := LoopState(allRetrievedDocs, seenTexts, allSources, iterationsUsed, answer);
    done := false;
  }

  /** `for iteration in range(1, max_iterations)`, leaving at the first pass that breaks. */
  method RefinementLoop(rag: AgenticRag, query: string, k: int, start: LoopState) returns (st: LoopState)
    ensures st == RefineFrom(rag, query, k, start, 1)
  {
    st := start;
    var iteration := 1;
    while iteration < rag.maxIterations
      invariant RefineFrom(rag, query, k, st, iteration) == RefineFrom(rag, query, k, start, 1)
      decreases rag.maxIterations - iteration
    {
      var done, next := RefinementPass(rag, query, k, iteration, st);
      if done {
        break;
      }
      st := next;
      iteration := iteration + 1;
    }
  }

  /** `query(query, k)`. */
  method Query(rag: AgenticRag, query: string, k: int) returns (result: QueryResult)
    ensures result == QueryOutcome(rag, query, k)
  {
    // Plan, then search every planned query.
    var plan := PlanQuery(rag, query);
    var queriesToSearch := QueriesToSearch(plan, query);
    var allRetrievedDocs, allSources := SearchAll(rag.search, queriesToSearch, k);

    // Remove duplicates, then cap.
    var seenTexts, uniqueDocs := RemoveDuplicates(allRetrievedDocs);
    allRetrievedDocs := Prefix(uniqueDocs, k * 2);

    // The first answer.
    var contexts := Texts(allRetrievedDocs);
    var sourcesList := SourceList(allRetrievedDocs);
    var answer := GenerateAnswer(rag, query, contexts, sourcesList, 0);
    var iterationsUsed := [IterationRecord(0, |allRetrievedDocs|, None, answer)];

    // Refinement.
    var st := RefinementLoop(rag, query, k, LoopState(allRetrievedDocs, seenTexts, allSources, iterationsUsed, answer));
    result := QueryResult(st.answer, st.sources, st.docs, st.log, plan, |st.docs|);
  }
}
