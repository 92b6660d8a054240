/**
 * The prompts `AgenticRAG` sends to the language model and the fallbacks it
 * uses when a call raises: planning (`_plan_query`), reflection
 * (`_check_completeness`) and answering (`_generate_answer`).
 */
module Prompts {
  import opened Wrappers
  import opened Builtins
  import opened DocumentLoader
  import opened RagModel
  import opened Aggregation

  /**
   * The wording `AgenticRAG` uses: the fixed text of its three prompts. The
   * answer templates' first words are written as separate literals ("Use ",
   * "You ") only so that `SourceIntrosDiffer` can read their first characters.
   */
  const SourceWording := Wording(
    "Analyze this query and determine if it needs to be broken down into sub-queries for better retrieval.\n\nQuery: ",
    "\n\nRespond in JSON format:\n{\n"
    + "    \"needs_decomposition\": true/false,\n"
    + "    \"reasoning\": \"brief explanation\",\n"
    + "    \"sub_queries\": [\"sub-query 1\", \"sub-query 2\", ...] or []\n"
    + "}\n\n"
    + "If the query is simple and straightforward, set needs_decomposition to false and sub_queries to an empty array.\n"
    + "If the query is complex (e.g., comparing multiple concepts, multi-part questions), break it down.",
    "Evaluate if this answer fully addresses the query. Consider:\n"
    + "1. Does it answer all parts of the question?\n"
    + "2. Are there gaps or missing information?\n"
    + "3. Would additional searches help?\n\n"
    + "Query: ",
    "\n\nRespond in JSON format:\n{\n"
    + "    \"is_complete\": true/false,\n"
    + "    \"confidence\": \"high/medium/low\",\n"
    + "    \"missing_aspects\": [\"aspect 1\", \"aspect 2\", ...] or [],\n"
    + "    \"needs_refinement\": true/false,\n"
    + "    \"refinement_query\": \"follow-up query if needs_refinement is true\" or \"\"\n"
    + "}",
    "Use " + "the following documents to answer the question. If the answer is not in the documents, say so.\n\n"
    + "Context from documents:\n",
    "You " + "are refining your answer based on additional context. "
    + "Use the following documents to provide a comprehensive answer.\n\n"
    + "Previous iteration: ",
    "\n\nProvide a complete answer that synthesizes all the information:")

  // --------------------------------------------------------------- planning

  /** The planning prompt for `query`. */
  function PlanPrompt(w: Wording, query: string): string
  {
    w.planHead + query + w.planTail
  }

  /** The plan used when the planning call raises with message `e`: treat the query as simple. */
  function PlanFailed(e: string): Plan
  {
    Plan(Some(false), Some("Planning failed: " + e), Some([]))
  }

  /** `_plan_query`: the parsed reply, or the fallback plan. */
  function PlanQuery(rag: AgenticRag, query: string): Plan
  {
    match rag.generator.plan(PlanPrompt(rag.wording, query))
    case Success(plan) => plan
    case Failure(e) => PlanFailed(e)
  }

  // ------------------------------------------------------------- reflection

  /** The number of documents and of characters per document the reflection preview shows. */
  const PreviewDocs := 3
  const PreviewChars := 200

  /** The preview lines: the first 200 characters of each of the first three documents. */
  function PreviewLines(docs: seq<Doc>): seq<string>
  {
    var shown := Prefix(docs, PreviewDocs);
    seq(|shown|, i requires 0 <= i < |shown| => Prefix(shown[i].text, PreviewChars))
  }

  /** `context_preview`: the preview lines joined by newlines. */
  function ContextPreview(docs: seq<Doc>): string
  {
    Join("\n", PreviewLines(docs))
  }

  /** The reflection prompt. */
  function ReflectionPrompt(w: Wording, query: string, answer: string, preview: string): string
  {
    w.reflectionHead + query + "\n\nAnswer: " + answer + "\n\nRetrieved context preview:\n" + preview + w.reflectionTail
  }

  /** The assessment used when the reflection call raises: assume the answer is complete. */
  const AssumeComplete := Assessment(Some(true), Some("medium"), Some([]), Some(false), Some(""))

  /** `_check_completeness` on pass `iteration`: the parsed reply, or the fallback assessment. */
  function CheckCompleteness(rag: AgenticRag, query: string, answer: string, docs: seq<Doc>, iteration: int): Assessment
  {
    match rag.generator.assess(ReflectionPrompt(rag.wording, query, answer, ContextPreview(docs)), iteration)
    case Success(assessment) => assessment
    case Failure(_) => AssumeComplete
  }

  /**
   * The loop stops on an assessment whose `needs_refinement` is false or
   * missing, or whose `refinement_query` is empty or missing.
   */
  predicate Stops(a: Assessment)
  {
    !a.needsRefinement.GetOr(false) || a.refinementQuery.GetOr("") == ""
  }

  // -------------------------------------------------------------- answering

  /** The header of context block `i` (numbered from 1) naming the document's source. */
  function BlockHeader(i: nat, source: string): string
  {
    "Context " + NatToString(i + 1) + " (from " + source + "):\n"
  }

  /** The numbered context blocks, one per context, each naming the source at the same position. */
  function ContextBlocks(contexts: seq<string>, sources: seq<string>): seq<string>
    requires |contexts| <= |sources|
  {
    seq(|contexts|, i requires 0 <= i < |contexts| => BlockHeader(i, sources[i]) + contexts[i])
  }

  /** `context_text`: the blocks separated by blank lines. */
  function ContextText(contexts: seq<string>, sources: seq<string>): string
    requires |contexts| <= |sources|
  {
    Join("\n\n", ContextBlocks(contexts, sources))
  }

  /** The answer prompt: the refining template on a later pass, the first template otherwise. */
  function AnswerPrompt(w: Wording, query: string, contextText: string, iteration: int): string
  {
    if iteration > 0 then
      w.refiningIntro + NatToString(iteration) + "\nContext from documents:\n" + contextText
      + "\n\nQuestion: " + query + w.refiningTail
    else
      w.firstIntro + contextText + "\n\nQuestion: " + query + "\n\nAnswer:"
  }

  const AnswerErrorPrefix := "Error generating answer: "

  /** `_generate_answer`: the model's reply, or the error text when the call raises. */
  function GenerateAnswer(rag: AgenticRag, query: string, contexts: seq<string>, sources: seq<string>, iteration: int): string
    requires |contexts| <= |sources|
  {
    match rag.generator.answer(AnswerPrompt(rag.wording, query, ContextText(contexts, sources), iteration), iteration)
    case Success(answer) => answer
    case Failure(e) => AnswerErrorPrefix + e
  }

  /** The answer generated from the documents `docs`: their texts as contexts and their sources. */
  function AnswerFrom(rag: AgenticRag, query: string, docs: seq<Doc>, iteration: int): string
  {
    GenerateAnswer(rag, query, Texts(docs), SourceList(docs), iteration)
  }
}
