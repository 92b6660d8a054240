/** Properties of the prompts and of the fallbacks of the language-model calls. */
module PromptsProofs {
  import opened Wrappers
  import opened Builtins
  import opened DocumentLoader
  import opened RagModel
  import opened Aggregation
  import opened Prompts

  /**
   * Context block i pairs the text and the source of the same document: for
   * every document of the list the answer is generated from, the block naming
   * its source, numbered i + 1 and holding its text, appears in the context.
   */
  lemma ContextShowsDoc(docs: seq<Doc>, i: nat) returns (at: nat)
    requires i < |docs|
    ensures OccursAt(BlockHeader(i, docs[i].source) + docs[i].text, ContextText(Texts(docs), SourceList(docs)), at)
  {
    var blocks := ContextBlocks(Texts(docs), SourceList(docs));
    at := JoinShowsPart("\n\n", blocks, i);
  }

  /** Without documents the context is empty. */
  lemma ContextOfNothing(sources: seq<string>)
    ensures ContextText([], sources) == ""
  {
  }

  /**
   * The header of block i reads "Context ", then decimal digits that read
   * back as i + 1, then " (from ", the source, and "):" on its own line.
   */
  lemma BlockNumbered(i: nat, source: string) returns (digits: string)
    ensures IsDigits(digits) && ParseNat(digits) == i + 1
    ensures BlockHeader(i, source) == "Context " + digits + " (from " + source + "):\n"
  {
    digits := NatToString(i + 1);
    ParseNatToString(i + 1);
  }

  lemma StartsWith(a: string, b: string)
    ensures a <= a + b
  {
    assert (a + b)[..|a|] == a;
  }

  /** The two answer templates start with different characters. */
  ghost predicate DistinctIntros(w: Wording)
  {
    |w.firstIntro| > 0 && |w.refiningIntro| > 0 && w.firstIntro[0] != w.refiningIntro[0]
  }

  /** The source's two answer templates start differently ("Use ..." and "You ..."). */
  lemma SourceIntrosDiffer()
    ensures DistinctIntros(SourceWording)
  {
    assert "Use "[0] == 'U';
    assert "You "[0] == 'Y';
  }

  /**
   * The refining template is used exactly on passes after the first: its
   * introduction is followed by the pass number; the first template is used
   * exactly otherwise.
   */
  lemma AnswerTemplate(w: Wording, query: string, contextText: string, iteration: int)
    requires DistinctIntros(w)
    ensures w.refiningIntro <= AnswerPrompt(w, query, contextText, iteration) <==> iteration > 0
    ensures w.firstIntro <= AnswerPrompt(w, query, contextText, iteration) <==> iteration <= 0
    ensures iteration > 0 ==> w.refiningIntro + NatToString(iteration) <= AnswerPrompt(w, query, contextText, iteration)
  {
    var p := AnswerPrompt(w, query, contextText, iteration);
    if iteration > 0 {
      var s1 := w.refiningIntro + NatToString(iteration);
      var s2 := s1 + "\nContext from documents:\n";
      var s3 := s2 + contextText;
      var s4 := s3 + "\n\nQuestion: ";
      var s5 := s4 + query;
      StartsWith(w.refiningIntro, NatToString(iteration));
      Extended(s1, s1, 0, "\nContext from documents:\n");
      Extended(s1, s2, 0, contextText);
      Extended(s1, s3, 0, "\n\nQuestion: ");
      Extended(s1, s4, 0, query);
      Extended(s1, s5, 0, w.refiningTail);
      assert p[0] == w.refiningIntro[0];
    } else {
      var s1 := w.firstIntro + contextText;
      var s2 := s1 + "\n\nQuestion: ";
      var s3 := s2 + query;
      StartsWith(w.firstIntro, contextText);
      Extended(w.firstIntro, s1, 0, "\n\nQuestion: ");
      Extended(w.firstIntro, s2, 0, query);
      Extended(w.firstIntro, s3, 0, "\n\nAnswer:");
      assert p[0] == w.firstIntro[0];
    }
  }

  /** Both templates show the context and the question; the refining one also shows the pass number. */
  lemma AnswerShows(w: Wording, query: string, contextText: string, iteration: int)
    ensures Contains(AnswerPrompt(w, query, contextText, iteration), contextText)
    ensures Contains(AnswerPrompt(w, query, contextText, iteration), query)
    ensures iteration > 0 ==> Contains(AnswerPrompt(w, query, contextText, iteration), NatToString(iteration))
  {
    if iteration > 0 {
      var n := NatToString(iteration);
      var s1 := w.refiningIntro + n;
      var s2 := s1 + "\nContext from documents:\n";
      var s3 := s2 + contextText;
      var s4 := s3 + "\n\nQuestion: ";
      var s5 := s4 + query;
      OccursAtEnd(w.refiningIntro, n);
      Extended(n, s1, |w.refiningIntro|, "\nContext from documents:\n");
      Extended(n, s2, |w.refiningIntro|, contextText);
      Extended(n, s3, |w.refiningIntro|, "\n\nQuestion: ");
      Extended(n, s4, |w.refiningIntro|, query);
      Extended(n, s5, |w.refiningIntro|, w.refiningTail);
      OccursAtEnd(s2, contextText);
      Extended(contextText, s3, |s2|, "\n\nQuestion: ");
      Extended(contextText, s4, |s2|, query);
      Extended(contextText, s5, |s2|, w.refiningTail);
      OccursAtEnd(s4, query);
      Extended(query, s5, |s4|, w.refiningTail);
    } else {
      var s1 := w.firstIntro + contextText;
      var s2 := s1 + "\n\nQuestion: ";
      var s3 := s2 + query;
      OccursAtEnd(w.firstIntro, contextText);
      Extended(contextText, s1, |w.firstIntro|, "\n\nQuestion: ");
      Extended(contextText, s2, |w.firstIntro|, query);
      Extended(contextText, s3, |w.firstIntro|, "\n\nAnswer:");
      OccursAtEnd(s2, query);
      Extended(query, s3, |s2|, "\n\nAnswer:");
    }
  }

  /** The reflection prompt shows the query, the answer under review and the preview. */
  lemma ReflectionShows(w: Wording, query: string, answer: string, preview: string)
    ensures Contains(ReflectionPrompt(w, query, answer, preview), query)
    ensures Contains(ReflectionPrompt(w, query, answer, preview), answer)
    ensures Contains(ReflectionPrompt(w, query, answer, preview), preview)
  {
    var s1 := w.reflectionHead + query;
    var s2 := s1 + "\n\nAnswer: ";
    var s3 := s2 + answer;
    var s4 := s3 + "\n\nRetrieved context preview:\n";
    var s5 := s4 + preview;
    OccursAtEnd(w.reflectionHead, query);
    Extended(query, s1, |w.reflectionHead|, "\n\nAnswer: ");
    Extended(query, s2, |w.reflectionHead|, answer);
    Extended(query, s3, |w.reflectionHead|, "\n\nRetrieved context preview:\n");
    Extended(query, s4, |w.reflectionHead|, preview);
    Extended(query, s5, |w.reflectionHead|, w.reflectionTail);
    OccursAtEnd(s2, answer);
    Extended(answer, s3, |s2|, "\n\nRetrieved context preview:\n");
    Extended(answer, s4, |s2|, preview);
    Extended(answer, s5, |s2|, w.reflectionTail);
    OccursAtEnd(s4, preview);
    Extended(preview, s5, |s4|, w.reflectionTail);
  }

  /** The planning prompt shows the query. */
  lemma PlanShows(w: Wording, query: string)
    ensures Contains(PlanPrompt(w, query), query)
  {
    OccursAtEnd(w.planHead, query);
    Extended(query, w.planHead + query, |w.planHead|, w.planTail);
  }

  /**
   * The reflection preview has one line per document for at most the first
   * three documents; each line is the start of that document's text, at most
   * 200 characters; so the preview is at most 3 * 200 + 2 characters long.
   */
  lemma PreviewBound(docs: seq<Doc>)
    ensures |PreviewLines(docs)| == Min(PreviewDocs, |docs|)
    ensures forall i :: 0 <= i < |PreviewLines(docs)| ==>
              PreviewLines(docs)[i] <= docs[i].text && |PreviewLines(docs)[i]| == Min(PreviewChars, |docs[i].text|)
    ensures |ContextPreview(docs)| <= PreviewDocs * PreviewChars + PreviewDocs - 1
  {
    var lines := PreviewLines(docs);
    JoinLengthBound("\n", lines, PreviewChars);
  }

  /** Only the first three documents reach the reflection prompt. */
  lemma PreviewOfFirstThree(docs: seq<Doc>, more: seq<Doc>)
    requires |docs| >= PreviewDocs
    ensures ContextPreview(docs + more) == ContextPreview(docs)
  {
    assert Prefix(docs + more, PreviewDocs) == Prefix(docs, PreviewDocs);
  }

  /** A failed answer call yields the error text carrying the exception's message. */
  lemma AnswerFallback(rag: AgenticRag, query: string, contexts: seq<string>, sources: seq<string>, iteration: int)
    requires |contexts| <= |sources|
    requires rag.generator.answer(AnswerPrompt(rag.wording, query, ContextText(contexts, sources), iteration), iteration).Failure?
    ensures var e := rag.generator.answer(AnswerPrompt(rag.wording, query, ContextText(contexts, sources), iteration), iteration).error;
            var r := GenerateAnswer(rag, query, contexts, sources, iteration);
            AnswerErrorPrefix <= r && r[|AnswerErrorPrefix|..] == e
  {
    var e := rag.generator.answer(AnswerPrompt(rag.wording, query, ContextText(contexts, sources), iteration), iteration).error;
    StartsWith(AnswerErrorPrefix, e);
  }

  /** A failed reflection call gives the "assume complete" assessment, which makes the loop stop. */
  lemma AssessFallback(rag: AgenticRag, query: string, answer: string, docs: seq<Doc>, iteration: int)
    requires rag.generator.assess(ReflectionPrompt(rag.wording, query, answer, ContextPreview(docs)), iteration).Failure?
    ensures var a := CheckCompleteness(rag, query, answer, docs, iteration);
            && a.isComplete == Some(true) && a.confidence == Some("medium") && a.missingAspects == Some([])
            && a.needsRefinement == Some(false) && a.refinementQuery == Some("")
    ensures Stops(CheckCompleteness(rag, query, answer, docs, iteration))
  {
  }
}
