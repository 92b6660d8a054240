/**
 * The entities of the agentic RAG loop: the plan and the self-assessment the
 * language model replies with, the two oracles the loop consults (the vector
 * store's search and the language model), the iteration log and the final
 * result.
 */
module RagModel {
  import opened Wrappers
  import opened Builtins
  import opened DocumentLoader

  /**
   * The parsed reply to the planning prompt. A key the reply leaves out is
   * `None`; the loop reads the keys with the defaults of `dict.get`.
   */
  datatype Plan = Plan(
    needsDecomposition: Option<bool>,
    reasoning: Option<string>,
    subQueries: Option<seq<string>>)

  /** The parsed reply to the reflection prompt; a missing key is `None`. */
  datatype Assessment = Assessment(
    isComplete: Option<bool>,
    confidence: Option<string>,
    missingAspects: Option<seq<string>>,
    needsRefinement: Option<bool>,
    refinementQuery: Option<string>)

  /**
   * The language model: for each prompt it either replies (with the parsed
   * JSON object, or with the answer text) or raises, with the exception's
   * message. The reflection and answer calls also receive the pass number,
   * so that the same prompt may be answered differently on different passes.
   */
  datatype Generator = Generator(
    plan: string -> Result<Plan, string>,
    assess: (string, int) -> Result<Assessment, string>,
    answer: (string, int) -> Result<string, string>)

  /**
   * The fixed wording of the three prompts, around the parts that vary: the
   * planning prompt is `planHead`, the query, `planTail`; the reflection
   * prompt starts with `reflectionHead` and ends with `reflectionTail`; the
   * answer prompt starts with `firstIntro` on the first pass and with
   * `refiningIntro` on later ones, where it ends with `refiningTail`.
   */
  datatype Wording = Wording(
    planHead: string,
    planTail: string,
    reflectionHead: string,
    reflectionTail: string,
    firstIntro: string,
    refiningIntro: string,
    refiningTail: string)

  /**
   * An `AgenticRAG` instance: the vector store's `search(query, k)`, the
   * language model, the iteration budget and the wording of its prompts.
   */
  datatype AgenticRag = AgenticRag(
    search: (string, int) -> seq<Doc>,
    generator: Generator,
    maxIterations: int,
    wording: Wording)

  /**
   * One entry of `iterations_used`; the first entry has no refinement query.
   */
  datatype IterationRecord = IterationRecord(
    iteration: int,
    docsRetrieved: int,
    refinementQuery: Option<string>,
    answer: string)

  /**
   * What `query` returns. The order of `list(all_sources)` is unspecified,
   * so the sources are a set.
   */
  datatype QueryResult = QueryResult(
    answer: string,
    sources: set<string>,
    retrievedDocs: seq<Doc>,
    iterations: seq<IterationRecord>,
    plan: Plan,
    totalDocsUsed: int)

  /**
   * What the vector store promises of `search(q, n)` for n >= 0 over an index
   * of `ntotal` chunks: nothing from an empty index, otherwise min(n, ntotal)
   * results.
   */
  ghost predicate StoreSearch(search: (string, int) -> seq<Doc>, ntotal: nat)
  {
    forall q, n | n >= 0 :: |search(q, n)| == if ntotal == 0 then 0 else Min(n, ntotal)
  }
}
