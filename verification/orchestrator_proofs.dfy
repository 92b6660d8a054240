/**
 * What `AgenticRAG.query` promises: the shape of the iteration log, the
 * window every answer is generated from, the documents the result keeps
 * (in order, with distinct texts, the primary window first), the sources it
 * reports, when the loop stops, and how many documents it can gather.
 */
module OrchestratorProofs {
  import opened Wrappers
  import opened Builtins
  import opened DocumentLoader
  import opened RagModel
  import opened Aggregation
  import opened Prompts
  import opened PromptsProofs
  import opened Orchestrator

  // ------------------------------------------------------------- invariants

  /**
   * The iteration log of `st` is well formed: one record per pass, numbered
   * from 0; only the first has no refinement query, the others carry the
   * non-empty query they searched; the last record holds the current answer
   * and the current number of documents.
   */
  ghost predicate Logged(st: LoopState)
  {
    && |st.log| > 0
    && st.log[|st.log| - 1].answer == st.answer
    && st.log[|st.log| - 1].docsRetrieved == |st.docs|
    && st.log[0].refinementQuery == None
    && (forall i :: 0 <= i < |st.log| ==> st.log[i].iteration == i)
    && (forall i :: 0 < i < |st.log| ==> st.log[i].refinementQuery.Some? && st.log[i].refinementQuery.value != "")
  }

  /** The current answer was generated on the latest pass from the first 2k documents. */
  ghost predicate Answered(rag: AgenticRag, query: string, k: int, st: LoopState)
  {
    |st.log| > 0 && st.answer == AnswerFrom(rag, query, Prefix(st.docs, k * 2), |st.log| - 1)
  }

  /** The documents have distinct texts, all of them seen. */
  ghost predicate Tracked(st: LoopState)
  {
    DistinctTexts(st.docs) && TextSet(st.docs) <= st.seen
  }

  /** Every reflection call succeeds and asks for a refinement with a non-empty query. */
  ghost predicate AlwaysRefines(g: Generator)
  {
    forall p, i :: g.assess(p, i).Success? && !Stops(g.assess(p, i).value)
  }

  // ------------------------------------------------------------ sequences

  lemma PrefixTrans<T>(a: seq<T>, b: seq<T>, c: seq<T>)
    requires a <= b && b <= c
    ensures a <= c
  {
    assert c[..|a|] == c[..|b|][..|a|];
  }

  /** A prefix of a list of documents keeps distinct texts, and its texts and sources are among the whole's. */
  lemma PrefixKeeps(docs: seq<Doc>, n: int)
    ensures DistinctTexts(docs) ==> DistinctTexts(Prefix(docs, n))
    ensures TextSet(Prefix(docs, n)) <= TextSet(docs)
    ensures SourcesOf(Prefix(docs, n)) <= SourcesOf(docs)
  {
    var p := Prefix(docs, n);
    assert p == docs[..|p|];
    PrefixTexts(docs, |p|);
  }

  /** Cutting to n twice is cutting once. */
  lemma PrefixTwice<T>(s: seq<T>, n: int)
    requires n >= 0
    ensures Prefix(Prefix(s, n), n) == Prefix(s, n)
  {
    var p := Prefix(s, n);
    assert |p| <= n;
    assert p[..Min(n, |p|)] == p;
  }

  // ------------------------------------------------------------ one pass

  /** A pass that does not break refines with the non-empty refinement query of the assessment. */
  lemma PassRefines(rag: AgenticRag, query: string, k: int, st: LoopState, iteration: int) returns (refinementQuery: string)
    requires Pass(rag, query, k, st, iteration).Some?
    ensures refinementQuery != ""
    ensures Pass(rag, query, k, st, iteration) == Some(Refined(rag, query, k, st, iteration, refinementQuery))
  {
    refinementQuery := CheckCompleteness(rag, query, st.answer, st.docs, iteration).refinementQuery.GetOr("");
  }

  /** `r` extends the log, the documents and the seen texts of `st`. */
  ghost predicate Extends(st: LoopState, r: LoopState)
  {
    st.log <= r.log && st.docs <= r.docs && st.seen <= r.seen
  }

  lemma ExtendsTrans(a: LoopState, b: LoopState, c: LoopState)
    requires Extends(a, b) && Extends(b, c)
    ensures Extends(a, c)
  {
    PrefixTrans(a.log, b.log, c.log);
    PrefixTrans(a.docs, b.docs, c.docs);
  }

  /** A refining pass extends the state and adds one record. */
  lemma RefinedExtends(rag: AgenticRag, query: string, k: int, st: LoopState, iteration: int, refinementQuery: string)
    ensures Extends(st, Refined(rag, query, k, st, iteration, refinementQuery))
    ensures |Refined(rag, query, k, st, iteration, refinementQuery).log| == |st.log| + 1
  {
    var next := Refined(rag, query, k, st, iteration, refinementQuery);
    assert next.log[..|st.log|] == st.log;
    assert next.docs[..|st.docs|] == st.docs;
  }

  /** A refining pass with a non-empty query appends a well-formed record. */
  lemma RefinedLogged(rag: AgenticRag, query: string, k: int, st: LoopState, iteration: int, refinementQuery: string)
    requires Logged(st) && |st.log| == iteration && refinementQuery != ""
    ensures Logged(Refined(rag, query, k, st, iteration, refinementQuery))
  {
  }

  /**
   * `r` grew from `st` keeping the texts distinct, appending only documents
   * whose text `st` had not seen, and adding exactly their sources.
   */
  ghost predicate TrackedFrom(st: LoopState, r: LoopState)
  {
    && Tracked(r)
    && st.docs <= r.docs
    && st.seen <= r.seen
    && TextSet(r.docs[|st.docs|..]) !! st.seen
    && r.sources == st.sources + SourcesOf(r.docs[|st.docs|..])
  }

  lemma TrackedFromSelf(st: LoopState)
    requires Tracked(st)
    ensures TrackedFrom(st, st)
  {
    assert st.docs[|st.docs|..] == [];
  }

  lemma TrackedTrans(a: LoopState, b: LoopState, c: LoopState)
    requires TrackedFrom(a, b) && TrackedFrom(b, c)
    ensures TrackedFrom(a, c)
  {
    PrefixTrans(a.docs, b.docs, c.docs);
    var added := b.docs[|a.docs|..];
    var later := c.docs[|b.docs|..];
    assert c.docs[|a.docs|..] == added + later;
    SetsAppend(added, later);
  }

  /**
   * A refining pass appends, in order, exactly the documents of the
   * refinement search whose text was not seen; they keep the texts distinct
   * and their sources are added to the sources.
   */
  lemma RefinedTracked(rag: AgenticRag, query: string, k: int, st: LoopState, iteration: int, refinementQuery: string)
    requires Tracked(st)
    ensures TrackedFrom(st, Refined(rag, query, k, st, iteration, refinementQuery))
  {
    var additional := RefinementSearch(rag, refinementQuery, k);
    var added := Dedup(additional, st.seen);
    var next := Refined(rag, query, k, st, iteration, refinementQuery);
    assert next.docs[|st.docs|..] == added;
    DedupDistinct(additional, st.seen);
    DistinctAppend(st.docs, added);
    SetsAppend(st.docs, added);
  }

  /** Over a store that returns at most n results, a refining pass adds at most k // 2 documents. */
  lemma RefinedGrowth(rag: AgenticRag, query: string, k: int, st: LoopState, iteration: int, refinementQuery: string, ntotal: nat)
    requires StoreSearch(rag.search, ntotal) && k >= 0
    ensures GrownFrom(st, Refined(rag, query, k, st, iteration, refinementQuery), k / 2)
  {
    var additional := RefinementSearch(rag, refinementQuery, k);
    assert |additional| == if ntotal == 0 then 0 else Min(k / 2, ntotal);
    DedupDistinct(additional, st.seen);
    assert Budget(1, k / 2) == k / 2;
  }

  /** The most documents `passes` refining passes can add, `step` at a time. */
  function Budget(passes: int, step: nat): nat
    decreases passes
  {
    if passes <= 0 then 0 else Budget(passes - 1, step) + step
  }

  /** `r` holds at most `step` more documents than `st` for each record it added. */
  ghost predicate GrownFrom(st: LoopState, r: LoopState, step: nat)
  {
    |st.log| <= |r.log| && |r.docs| <= |st.docs| + Budget(|r.log| - |st.log|, step)
  }

  lemma GrownFromSelf(st: LoopState, step: nat)
    ensures GrownFrom(st, st, step)
  {
  }

  lemma GrownTrans(a: LoopState, b: LoopState, c: LoopState, step: nat)
    requires GrownFrom(a, b, step) && GrownFrom(b, c, step)
    ensures GrownFrom(a, c, step)
  {
    BudgetAdd(|b.log| - |a.log|, |c.log| - |b.log|, step);
  }

  lemma {:induction false} BudgetAdd(m: nat, n: nat, step: nat)
    ensures Budget(m + n, step) == Budget(m, step) + Budget(n, step)
  {
    if n > 0 {
      BudgetAdd(m, n - 1, step);
    }
  }

  lemma BudgetMono(m: nat, n: nat, step: nat)
    requires m <= n
    ensures Budget(m, step) <= Budget(n, step)
  {
    BudgetAdd(m, n - m, step);
  }

  /** The budget of `passes` passes of `step` documents is their product. */
  lemma {:induction false} BudgetIs(passes: nat, step: nat)
    ensures Budget(passes, step) == passes * step
  {
    if passes > 0 {
      BudgetIs(passes - 1, step);
    }
  }

  // ---------------------------------------------------------- the loop

  /** The loop only extends the log, the documents and the seen texts. */
  lemma {:induction false} RefineExtends(rag: AgenticRag, query: string, k: int, st: LoopState, iteration: int)
    ensures Extends(st, RefineFrom(rag, query, k, st, iteration))
    decreases rag.maxIterations - iteration
  {
    if iteration < rag.maxIterations && Pass(rag, query, k, st, iteration).Some? {
      var refinementQuery := PassRefines(rag, query, k, st, iteration);
      var next := Refined(rag, query, k, st, iteration, refinementQuery);
      RefinedExtends(rag, query, k, st, iteration, refinementQuery);
      RefineExtends(rag, query, k, next, iteration + 1);
      ExtendsTrans(st, next, RefineFrom(rag, query, k, next, iteration + 1));
    }
  }

  /**
   * From a well-formed log of `iteration` records, the loop ends with a
   * well-formed log of at least `iteration` and at most `max_iterations` records.
   */
  lemma {:induction false} RefineLogged(rag: AgenticRag, query: string, k: int, st: LoopState, iteration: int)
    requires Logged(st) && |st.log| == iteration
    ensures Logged(RefineFrom(rag, query, k, st, iteration))
    decreases rag.maxIterations - iteration
  {
    if iteration < rag.maxIterations && Pass(rag, query, k, st, iteration).Some? {
      var refinementQuery := PassRefines(rag, query, k, st, iteration);
      var next := Refined(rag, query, k, st, iteration, refinementQuery);
      RefinedLogged(rag, query, k, st, iteration, refinementQuery);
      RefineLogged(rag, query, k, next, iteration + 1);
    }
  }

  /** Every answer of the loop is generated, on its own pass, from the first 2k documents gathered so far. */
  lemma {:induction false} RefineAnswered(rag: AgenticRag, query: string, k: int, st: LoopState, iteration: int)
    requires Answered(rag, query, k, st) && |st.log| == iteration
    ensures Answered(rag, query, k, RefineFrom(rag, query, k, st, iteration))
    decreases rag.maxIterations - iteration
  {
    if iteration < rag.maxIterations && Pass(rag, query, k, st, iteration).Some? {
      var refinementQuery := PassRefines(rag, query, k, st, iteration);
      var next := Refined(rag, query, k, st, iteration, refinementQuery);
      RefinedExtends(rag, query, k, st, iteration, refinementQuery);
      RefineAnswered(rag, query, k, next, iteration + 1);
    }
  }

  /**
   * Every logged answer was generated, on its own pass, from the first 2k of
   * the documents gathered by then, which are the first `docsRetrieved`
   * documents of `st`.
   */
  ghost predicate EveryAnswerWindowed(rag: AgenticRag, query: string, k: int, st: LoopState)
  {
    forall i :: 0 <= i < |st.log| ==>
      && 0 <= st.log[i].docsRetrieved <= |st.docs|
      && st.log[i].answer == AnswerFrom(rag, query, Prefix(st.docs[..st.log[i].docsRetrieved], k * 2), i)
  }

  /** A refining pass keeps every earlier record's window, since it only appends, and logs its own answer with its own window. */
  lemma RefinedWindowed(rag: AgenticRag, query: string, k: int, st: LoopState, iteration: int, refinementQuery: string)
    requires EveryAnswerWindowed(rag, query, k, st) && |st.log| == iteration
    ensures EveryAnswerWindowed(rag, query, k, Refined(rag, query, k, st, iteration, refinementQuery))
  {
    var r := Refined(rag, query, k, st, iteration, refinementQuery);
    forall i | 0 <= i < |r.log|
      ensures 0 <= r.log[i].docsRetrieved <= |r.docs|
      ensures r.log[i].answer == AnswerFrom(rag, query, Prefix(r.docs[..r.log[i].docsRetrieved], k * 2), i)
    {
      if i < |st.log| {
        var m := st.log[i].docsRetrieved;
        assert r.log[i] == st.log[i];
        assert r.docs[..m] == st.docs[..m];
      } else {
        assert r.docs[..|r.docs|] == r.docs;
      }
    }
  }

  /** Every answer the loop logs was generated from the first 2k documents gathered when it was logged. */
  lemma {:induction false} RefineWindowed(rag: AgenticRag, query: string, k: int, st: LoopState, iteration: int)
    requires EveryAnswerWindowed(rag, query, k, st) && |st.log| == iteration
    ensures EveryAnswerWindowed(rag, query, k, RefineFrom(rag, query, k, st, iteration))
    decreases rag.maxIterations - iteration
  {
    if iteration < rag.maxIterations && Pass(rag, query, k, st, iteration).Some? {
      var refinementQuery := PassRefines(rag, query, k, st, iteration);
      var next := Refined(rag, query, k, st, iteration, refinementQuery);
      RefinedExtends(rag, query, k, st, iteration, refinementQuery);
      RefinedWindowed(rag, query, k, st, iteration, refinementQuery);
      RefineWindowed(rag, query, k, next, iteration + 1);
    }
  }

  /**
   * The loop keeps the documents' texts distinct; every document it appends
   * has a text that was unseen when it started; and the sources grow by
   * exactly the sources of the appended documents.
   */
  lemma {:induction false} RefineTracked(rag: AgenticRag, query: string, k: int, st: LoopState, iteration: int)
    requires Tracked(st)
    ensures TrackedFrom(st, RefineFrom(rag, query, k, st, iteration))
    decreases rag.maxIterations - iteration
  {
    if iteration < rag.maxIterations && Pass(rag, query, k, st, iteration).Some? {
      var refinementQuery := PassRefines(rag, query, k, st, iteration);
      var next := Refined(rag, query, k, st, iteration, refinementQuery);
      RefinedTracked(rag, query, k, st, iteration, refinementQuery);
      RefineTracked(rag, query, k, next, iteration + 1);
      TrackedTrans(st, next, RefineFrom(rag, query, k, next, iteration + 1));
    } else {
      TrackedFromSelf(st);
    }
  }

  /** Over a store that returns at most n results, each pass adds at most k // 2 documents. */
  lemma {:induction false} RefineGrowth(rag: AgenticRag, query: string, k: int, st: LoopState, iteration: int, ntotal: nat)
    requires StoreSearch(rag.search, ntotal) && k >= 0
    ensures GrownFrom(st, RefineFrom(rag, query, k, st, iteration), k / 2)
    decreases rag.maxIterations - iteration
  {
    if iteration < rag.maxIterations && Pass(rag, query, k, st, iteration).Some? {
      var refinementQuery := PassRefines(rag, query, k, st, iteration);
      var next := Refined(rag, query, k, st, iteration, refinementQuery);
      RefinedGrowth(rag, query, k, st, iteration, refinementQuery, ntotal);
      RefineGrowth(rag, query, k, next, iteration + 1, ntotal);
      GrownTrans(st, next, RefineFrom(rag, query, k, next, iteration + 1), k / 2);
    } else {
      GrownFromSelf(st, k / 2);
    }
  }

  /**
   * A pass that is allowed to run leaves the log as it is exactly when the
   * assessment of the current answer says to stop: `needs_refinement` false
   * or missing, or an empty or missing `refinement_query`.
   */
  lemma RefineStopsIff(rag: AgenticRag, query: string, k: int, st: LoopState, iteration: int)
    requires iteration < rag.maxIterations
    ensures |RefineFrom(rag, query, k, st, iteration).log| == |st.log|
            <==> Stops(CheckCompleteness(rag, query, st.answer, st.docs, iteration))
  {
    if Pass(rag, query, k, st, iteration).Some? {
      var refinementQuery := PassRefines(rag, query, k, st, iteration);
      var next := Refined(rag, query, k, st, iteration, refinementQuery);
      RefinedExtends(rag, query, k, st, iteration, refinementQuery);
      RefineExtends(rag, query, k, next, iteration + 1);
    }
  }

  /** When every assessment asks for a refinement, the loop runs every pass of its budget. */
  lemma {:induction false} RefineFull(rag: AgenticRag, query: string, k: int, st: LoopState, iteration: int)
    requires AlwaysRefines(rag.generator)
    ensures LogGrew(st, RefineFrom(rag, query, k, st, iteration), rag.maxIterations - iteration)
    decreases rag.maxIterations - iteration
  {
    if iteration < rag.maxIterations {
      var prompt := ReflectionPrompt(rag.wording, query, st.answer, ContextPreview(st.docs));
      assert rag.generator.assess(prompt, iteration).Success? && !Stops(rag.generator.assess(prompt, iteration).value);
      var refinementQuery := PassRefines(rag, query, k, st, iteration);
      var next := Refined(rag, query, k, st, iteration, refinementQuery);
      RefinedExtends(rag, query, k, st, iteration, refinementQuery);
      RefineFull(rag, query, k, next, iteration + 1);
      LogGrewStep(st, next, RefineFrom(rag, query, k, next, iteration + 1), rag.maxIterations - iteration);
    }
  }

  /** `r` has exactly `left` more records than `st` (none when `left` is not positive). */
  ghost predicate LogGrew(st: LoopState, r: LoopState, left: int)
  {
    |r.log| == |st.log| + Max(0, left)
  }

  lemma LogGrewStep(st: LoopState, next: LoopState, r: LoopState, left: int)
    requires |next.log| == |st.log| + 1 && left > 0
    requires LogGrew(next, r, left - 1)
    ensures LogGrew(st, r, left)
  {
  }

  /** `r` has between zero and `left` more records than `st`. */
  ghost predicate LogBounded(st: LoopState, r: LoopState, left: int)
  {
    |st.log| <= |r.log| <= |st.log| + Max(0, left)
  }

  lemma LogBoundedStep(st: LoopState, next: LoopState, r: LoopState, left: int)
    requires |next.log| == |st.log| + 1 && left > 0
    requires LogBounded(next, r, left - 1)
    ensures LogBounded(st, r, left)
  {
  }

  /** The loop adds one record per pass it runs, and runs at most the passes left in its budget. */
  lemma {:induction false} RefineBounded(rag: AgenticRag, query: string, k: int, st: LoopState, iteration: int)
    ensures LogBounded(st, RefineFrom(rag, query, k, st, iteration), rag.maxIterations - iteration)
    decreases rag.maxIterations - iteration
  {
    if iteration < rag.maxIterations && Pass(rag, query, k, st, iteration).Some? {
      var refinementQuery := PassRefines(rag, query, k, st, iteration);
      var next := Refined(rag, query, k, st, iteration, refinementQuery);
      RefinedExtends(rag, query, k, st, iteration, refinementQuery);
      RefineBounded(rag, query, k, next, iteration + 1);
      LogBoundedStep(st, next, RefineFrom(rag, query, k, next, iteration + 1), rag.maxIterations - iteration);
    }
  }

  /** A start of the refinement loop: at most 2k documents and one logged answer. */
  predicate Start(st: LoopState, k: int)
  {
    k >= 0 && |st.docs| <= k * 2 && |st.log| == 1
  }

  /** At most 2k documents plus k // 2 per pass run, and so at most 2k plus k // 2 per pass of the budget. */
  ghost predicate Within(r: LoopState, maxIterations: int, k: int)
  {
    && k >= 0
    && |r.docs| <= k * 2 + Budget(|r.log| - 1, k / 2)
    && |r.docs| <= k * 2 + Budget(Max(1, maxIterations) - 1, k / 2)
  }

  /** A loop run from a `Start` state that adds at most k // 2 documents per pass and stays within its budget of passes ends `Within` its bounds. */
  lemma StartBound(st: LoopState, r: LoopState, maxIterations: int, k: int)
    requires Start(st, k) && GrownFrom(st, r, k / 2) && LogBounded(st, r, maxIterations - 1)
    ensures Within(r, maxIterations, k)
  {
    BudgetMono(|r.log| - 1, Max(1, maxIterations) - 1, k / 2);
  }

  /** Once three documents are in, the reflection preview never changes: later documents are never shown to it. */
  lemma RefinePreviewStable(rag: AgenticRag, query: string, k: int, st: LoopState, iteration: int)
    requires |st.docs| >= PreviewDocs
    ensures ContextPreview(RefineFrom(rag, query, k, st, iteration).docs) == ContextPreview(st.docs)
  {
    var r := RefineFrom(rag, query, k, st, iteration);
    RefineExtends(rag, query, k, st, iteration);
    assert r.docs == st.docs + r.docs[|st.docs|..];
    PreviewOfFirstThree(st.docs, r.docs[|st.docs|..]);
  }

  /** From an empty store the loop finds nothing: the documents and sources stay as they are. */
  lemma {:induction false} RefineEmptyStore(rag: AgenticRag, query: string, k: int, st: LoopState, iteration: int)
    requires StoreSearch(rag.search, 0) && k >= 0
    ensures RefineFrom(rag, query, k, st, iteration).docs == st.docs
    ensures RefineFrom(rag, query, k, st, iteration).sources == st.sources
    decreases rag.maxIterations - iteration
  {
    if iteration < rag.maxIterations && Pass(rag, query, k, st, iteration).Some? {
      var refinementQuery := PassRefines(rag, query, k, st, iteration);
      var next := Refined(rag, query, k, st, iteration, refinementQuery);
      var additional := RefinementSearch(rag, refinementQuery, k);
      assert |additional| == 0;
      assert Dedup(additional, st.seen) == [];
      RefineEmptyStore(rag, query, k, next, iteration + 1);
    }
  }

  // ------------------------------------------------------------ the query

  /** From an empty store the primary searches find nothing. */
  lemma {:induction false} RetrievedFromEmpty(search: (string, int) -> seq<Doc>, queries: seq<string>, k: int)
    requires StoreSearch(search, 0) && k >= 0
    ensures Retrieved(search, queries, k) == []
  {
    if queries != [] {
      var n := |queries| - 1;
      RetrievedFromEmpty(search, queries[..n], k);
      assert |search(queries[n], k)| == 0;
    }
  }

  /**
   * The primary window is the list of first occurrences of each text among the
   * primary results, in order, cut to 2k: never more than 2k documents.
   */
  lemma QueryFirstWindow(rag: AgenticRag, query: string, k: int)
    ensures var primary := Primary(rag, query, k);
            FirstWindow(rag, query, k) == Prefix(Firsts(primary, {}, |primary|), k * 2)
    ensures k >= 0 ==> |FirstWindow(rag, query, k)| <= k * 2
  {
    var primary := Primary(rag, query, k);
    assert primary[..|primary|] == primary;
    DedupIsFirsts(primary, {}, |primary|);
  }

  /** The refinement loop starts from at most 2k documents and one logged answer. */
  lemma InitialStart(rag: AgenticRag, query: string, k: int)
    requires k >= 0
    ensures Start(InitialState(rag, query, k), k)
  {
    QueryFirstWindow(rag, query, k);
  }

  /** The state after the first answer satisfies the loop's invariants. */
  lemma InitialFacts(rag: AgenticRag, query: string, k: int)
    ensures var st := InitialState(rag, query, k);
            && Logged(st) && |st.log| == 1 && Tracked(st)
            && st.docs == FirstWindow(rag, query, k)
            && st.seen == TextSet(Primary(rag, query, k))
            && st.sources == SourcesOf(Primary(rag, query, k))
            && (k >= 0 ==> Answered(rag, query, k, st))
  {
    var primary := Primary(rag, query, k);
    var unique := Dedup(primary, {});
    DedupDistinct(primary, {});
    PrefixKeeps(unique, k * 2);
    if k >= 0 {
      PrefixTwice(unique, k * 2);
    }
  }

  /**
   * The iteration log of `query`: one to `max(1, max_iterations)` records,
   * numbered from 0; only the first lacks a refinement query; the returned
   * answer is the last record's, and `total_docs_used` is the number of
   * documents returned and the last record's count. The plan returned is the
   * plan made.
   */
  lemma QueryLog(rag: AgenticRag, query: string, k: int)
    ensures var r := QueryOutcome(rag, query, k);
            && 1 <= |r.iterations| <= Max(1, rag.maxIterations)
            && (forall i :: 0 <= i < |r.iterations| ==> r.iterations[i].iteration == i)
            && r.iterations[0].refinementQuery == None
            && (forall i :: 0 < i < |r.iterations| ==> r.iterations[i].refinementQuery.Some? && r.iterations[i].refinementQuery.value != "")
            && r.answer == r.iterations[|r.iterations| - 1].answer
            && r.totalDocsUsed == |r.retrievedDocs| == r.iterations[|r.iterations| - 1].docsRetrieved
            && r.plan == PlanQuery(rag, query)
  {
    InitialFacts(rag, query, k);
    RefineLogged(rag, query, k, InitialState(rag, query, k), 1);
    RefineBounded(rag, query, k, InitialState(rag, query, k), 1);
  }

  /**
   * The documents `query` returns: the primary window first, then only
   * documents whose text no primary search returned (so a text cut by the cap
   * never comes back); all texts distinct. The sources reported are those of
   * every primary result, including results cut by the cap, and those of the
   * appended documents.
   */
  lemma QueryDocs(rag: AgenticRag, query: string, k: int)
    ensures var r := QueryOutcome(rag, query, k);
            var first := FirstWindow(rag, query, k);
            var primary := Primary(rag, query, k);
            && first <= r.retrievedDocs
            && DistinctTexts(r.retrievedDocs)
            && TextSet(r.retrievedDocs[|first|..]) !! TextSet(primary)
            && r.sources == SourcesOf(primary) + SourcesOf(r.retrievedDocs[|first|..])
  {
    InitialFacts(rag, query, k);
    RefineTracked(rag, query, k, InitialState(rag, query, k), 1);
  }

  /** For k >= 0 the returned answer was generated, on the last pass, from the first 2k returned documents. */
  lemma QueryAnswerWindow(rag: AgenticRag, query: string, k: int)
    requires k >= 0
    ensures var r := QueryOutcome(rag, query, k);
            |r.iterations| > 0 && r.answer == AnswerFrom(rag, query, Prefix(r.retrievedDocs, k * 2), |r.iterations| - 1)
  {
    InitialFacts(rag, query, k);
    RefineAnswered(rag, query, k, InitialState(rag, query, k), 1);
  }

  /** The first answer was generated from the primary window, which the cap leaves as it is. */
  lemma InitialWindowed(rag: AgenticRag, query: string, k: int)
    requires k >= 0
    ensures EveryAnswerWindowed(rag, query, k, InitialState(rag, query, k))
  {
    var st := InitialState(rag, query, k);
    var unique := Dedup(Primary(rag, query, k), {});
    PrefixTwice(unique, k * 2);
    assert st.docs[..|st.docs|] == st.docs;
  }

  /**
   * Each generation call of `query` receives exactly the first 2k of the
   * documents gathered so far: for every record i of the log, its answer is
   * the one generated on pass i from the first min(docs_retrieved, 2k)
   * returned documents.
   */
  lemma QueryAnswers(rag: AgenticRag, query: string, k: int)
    requires k >= 0
    ensures var r := QueryOutcome(rag, query, k);
            forall i :: 0 <= i < |r.iterations| ==>
              && 0 <= r.iterations[i].docsRetrieved <= |r.retrievedDocs|
              && r.iterations[i].answer == AnswerFrom(rag, query, Prefix(r.retrievedDocs[..r.iterations[i].docsRetrieved], k * 2), i)
  {
    InitialWindowed(rag, query, k);
    InitialFacts(rag, query, k);
    RefineWindowed(rag, query, k, InitialState(rag, query, k), 1);
    var r := FinalState(rag, query, k);
    assert EveryAnswerWindowed(rag, query, k, r);
    assert QueryOutcome(rag, query, k).iterations == r.log && QueryOutcome(rag, query, k).retrievedDocs == r.docs;
  }

  /**
   * With a budget of two or more passes, `query` answers only once exactly
   * when the first assessment says to stop.
   */
  lemma QueryStopsIff(rag: AgenticRag, query: string, k: int)
    requires rag.maxIterations > 1
    ensures var first := FirstWindow(rag, query, k);
            |QueryOutcome(rag, query, k).iterations| == 1
            <==> Stops(CheckCompleteness(rag, query, AnswerFrom(rag, query, first, 0), first, 1))
  {
    InitialFacts(rag, query, k);
    RefineStopsIff(rag, query, k, InitialState(rag, query, k), 1);
  }

  /** When every assessment asks for a refinement, `query` uses its whole budget of `max(1, max_iterations)` passes. */
  lemma QueryFullBudget(rag: AgenticRag, query: string, k: int)
    requires AlwaysRefines(rag.generator)
    ensures |QueryOutcome(rag, query, k).iterations| == Max(1, rag.maxIterations)
  {
    RefineFull(rag, query, k, InitialState(rag, query, k), 1);
  }

  /** Over a vector store whose search returns min(n, ntotal) results, the final loop state is `Within` its bounds. */
  lemma FinalGrowth(rag: AgenticRag, query: string, k: int, ntotal: nat)
    requires StoreSearch(rag.search, ntotal) && k >= 0
    ensures Within(FinalState(rag, query, k), rag.maxIterations, k)
  {
    var st := InitialState(rag, query, k);
    InitialStart(rag, query, k);
    RefineGrowth(rag, query, k, st, 1, ntotal);
    RefineBounded(rag, query, k, st, 1);
    StartBound(st, FinalState(rag, query, k), rag.maxIterations, k);
  }

  /**
   * Over a vector store whose search returns min(n, ntotal) results, `query`
   * returns at most 2k documents plus k // 2 for each refinement pass, so at
   * most 2k + (max(1, max_iterations) - 1) * (k // 2) (see `BudgetIs`).
   */
  lemma QueryGrowth(rag: AgenticRag, query: string, k: int, ntotal: nat)
    requires StoreSearch(rag.search, ntotal) && k >= 0
    ensures var r := QueryOutcome(rag, query, k);
            |r.retrievedDocs| <= k * 2 + Budget(|r.iterations| - 1, k / 2)
    ensures |QueryOutcome(rag, query, k).retrievedDocs| <= k * 2 + Budget(Max(1, rag.maxIterations) - 1, k / 2)
  {
    FinalGrowth(rag, query, k, ntotal);
    var r := FinalState(rag, query, k);
    assert Within(r, rag.maxIterations, k);
    assert QueryOutcome(rag, query, k).iterations == r.log && QueryOutcome(rag, query, k).retrievedDocs == r.docs;
  }

  /** Over an empty vector store `query` returns no documents and no sources. */
  lemma QueryEmptyStore(rag: AgenticRag, query: string, k: int)
    requires StoreSearch(rag.search, 0) && k >= 0
    ensures QueryOutcome(rag, query, k).retrievedDocs == []
    ensures QueryOutcome(rag, query, k).sources == {}
    ensures QueryOutcome(rag, query, k).totalDocsUsed == 0
  {
    var primary := Primary(rag, query, k);
    RetrievedFromEmpty(rag.search, QueriesToSearch(PlanQuery(rag, query), query), k);
    assert Dedup(primary, {}) == [];
    RefineEmptyStore(rag, query, k, InitialState(rag, query, k), 1);
  }

  /** When the planning call raises, the fallback plan is returned and the query itself is the only primary search. */
  lemma QueryPlanFallback(rag: AgenticRag, query: string, k: int)
    requires rag.generator.plan(PlanPrompt(rag.wording, query)).Failure?
    ensures var e := rag.generator.plan(PlanPrompt(rag.wording, query)).error;
            QueryOutcome(rag, query, k).plan == PlanFailed(e)
    ensures Primary(rag, query, k) == rag.search(query, k)
  {
    assert PlanQuery(rag, query).needsDecomposition == Some(false);
    assert QueriesToSearch(PlanQuery(rag, query), query) == [query];
    assert [query][..0] == [];
    assert Retrieved(rag.search, [], k) == [];
  }

  /**
   * A plan that asks for decomposition but lists no sub-queries searches
   * nothing: the first answer is generated from an empty context.
   */
  lemma QueryEmptyDecomposition(rag: AgenticRag, query: string, k: int)
    requires PlanQuery(rag, query).needsDecomposition == Some(true)
    requires PlanQuery(rag, query).subQueries.GetOr([]) == []
    ensures FirstWindow(rag, query, k) == []
    ensures |QueryOutcome(rag, query, k).iterations| > 0
    ensures var first := QueryOutcome(rag, query, k).iterations[0];
            first.docsRetrieved == 0 && first.answer == GenerateAnswer(rag, query, [], [], 0)
  {
    InitialFacts(rag, query, k);
    RefineExtends(rag, query, k, InitialState(rag, query, k), 1);
    assert Texts([]) == [] && SourceList([]) == [];
  }
}
