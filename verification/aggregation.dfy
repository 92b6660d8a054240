/**
 * The document bookkeeping of `AgenticRAG.query`: what the searches return,
 * the texts already seen, the sources collected, and the order-preserving
 * removal of documents whose text was seen before.
 */
module Aggregation {
  import opened DocumentLoader

  /** `[doc['text'] for doc in docs]`. */
  function Texts(docs: seq<Doc>): seq<string>
  {
    seq(|docs|, i requires 0 <= i < |docs| => docs[i].text)
  }

  /** `[doc['source'] for doc in docs]`. */
  function SourceList(docs: seq<Doc>): seq<string>
  {
    seq(|docs|, i requires 0 <= i < |docs| => docs[i].source)
  }

  /** The set of the texts of `docs`. */
  function TextSet(docs: seq<Doc>): set<string>
  {
    set i | 0 <= i < |docs| :: docs[i].text
  }

  /** The set of the sources of `docs`. */
  function SourcesOf(docs: seq<Doc>): set<string>
  {
    set i | 0 <= i < |docs| :: docs[i].source
  }

  /** No two of `docs` have the same text. */
  predicate DistinctTexts(docs: seq<Doc>)
  {
    forall i, j :: 0 <= i < j < |docs| ==> docs[i].text != docs[j].text
  }

  /** The results of searching each query with fan-out `k`, one query after another. */
  function Retrieved(search: (string, int) -> seq<Doc>, queries: seq<string>, k: int): seq<Doc>
  {
    if queries == [] then []
    else
      var n := |queries| - 1;
      Retrieved(search, queries[..n], k) + search(queries[n], k)
  }

  /**
   * The documents of `docs`, in order, whose text is neither in `seen` nor
   * the text of an earlier document: the loop that keeps a doc when
   * `doc['text'] not in seen_texts` and then adds that text.
   */
  function Dedup(docs: seq<Doc>, seen: set<string>): seq<Doc>
  {
    if docs == [] then []
    else
      var n := |docs| - 1;
      var kept := Dedup(docs[..n], seen);
      if docs[n].text in seen + TextSet(docs[..n]) then kept else kept + [docs[n]]
  }

  /** Position `p` holds the first occurrence of its text in `docs`, and that text is not in `seen`. */
  ghost predicate IsFirst(docs: seq<Doc>, seen: set<string>, p: nat)
    requires p < |docs|
  {
    docs[p].text !in seen && forall q :: 0 <= q < p ==> docs[q].text != docs[p].text
  }

  /** The documents among the first `n` that are first occurrences of an unseen text, in order. */
  ghost function Firsts(docs: seq<Doc>, seen: set<string>, n: nat): seq<Doc>
    requires n <= |docs|
  {
    if n == 0 then []
    else Firsts(docs, seen, n - 1) + (if IsFirst(docs, seen, n - 1) then [docs[n - 1]] else [])
  }

  // ----------------------------------------------------------------- lemmas

  lemma TextSetHas(docs: seq<Doc>, i: nat)
    requires i < |docs|
    ensures docs[i].text in TextSet(docs)
    ensures docs[i].source in SourcesOf(docs)
  {
  }

  /** Appending documents adds their texts and sources. */
  lemma {:induction false} SetsAppend(a: seq<Doc>, b: seq<Doc>)
    ensures TextSet(a + b) == TextSet(a) + TextSet(b)
    ensures SourcesOf(a + b) == SourcesOf(a) + SourcesOf(b)
  {
    var ab := a + b;
    forall t | t in TextSet(a) + TextSet(b)
      ensures t in TextSet(ab)
    {
      if t in TextSet(a) {
        var i :| 0 <= i < |a| && a[i].text == t;
        TextSetHas(ab, i);
      } else {
        var i :| 0 <= i < |b| && b[i].text == t;
        TextSetHas(ab, |a| + i);
      }
    }
    forall s | s in SourcesOf(a) + SourcesOf(b)
      ensures s in SourcesOf(ab)
    {
      if s in SourcesOf(a) {
        var i :| 0 <= i < |a| && a[i].source == s;
        TextSetHas(ab, i);
      } else {
        var i :| 0 <= i < |b| && b[i].source == s;
        TextSetHas(ab, |a| + i);
      }
    }
    forall t | t in TextSet(ab)
      ensures t in TextSet(a) + TextSet(b)
    {
      var i :| 0 <= i < |ab| && ab[i].text == t;
      if i < |a| { TextSetHas(a, i); } else { TextSetHas(b, i - |a|); }
    }
    forall s | s in SourcesOf(ab)
      ensures s in SourcesOf(a) + SourcesOf(b)
    {
      var i :| 0 <= i < |ab| && ab[i].source == s;
      if i < |a| { TextSetHas(a, i); } else { TextSetHas(b, i - |a|); }
    }
  }

  /** Appending one document adds its text and its source. */
  lemma SetsSnoc(docs: seq<Doc>, d: Doc)
    ensures TextSet(docs + [d]) == TextSet(docs) + {d.text}
    ensures SourcesOf(docs + [d]) == SourcesOf(docs) + {d.source}
  {
    SetsAppend(docs, [d]);
    TextSetHas([d], 0);
    assert TextSet([d]) == {d.text};
    assert SourcesOf([d]) == {d.source};
  }

  /** The texts of a prefix are among the texts of the whole. */
  lemma PrefixTexts(docs: seq<Doc>, m: nat)
    requires m <= |docs|
    ensures TextSet(docs[..m]) <= TextSet(docs)
    ensures SourcesOf(docs[..m]) <= SourcesOf(docs)
  {
    assert docs == docs[..m] + docs[m..];
    SetsAppend(docs[..m], docs[m..]);
  }

  /** Two lists with distinct texts and no text in common have distinct texts together. */
  lemma DistinctAppend(a: seq<Doc>, b: seq<Doc>)
    requires DistinctTexts(a) && DistinctTexts(b)
    requires TextSet(a) !! TextSet(b)
    ensures DistinctTexts(a + b)
  {
    var ab := a + b;
    forall i, j | 0 <= i < j < |ab|
      ensures ab[i].text != ab[j].text
    {
      if i < |a| && j >= |a| {
        TextSetHas(a, i);
        TextSetHas(b, j - |a|);
      }
    }
  }

  /**
   * Deduplication keeps documents with pairwise-distinct texts, none of them
   * in `seen`, and loses no text: the kept texts are exactly the texts of
   * `docs` not in `seen`. It keeps at most as many documents as it is given.
   */
  lemma {:induction false} DedupDistinct(docs: seq<Doc>, seen: set<string>)
    ensures DistinctTexts(Dedup(docs, seen))
    ensures TextSet(Dedup(docs, seen)) == TextSet(docs) - seen
    ensures |Dedup(docs, seen)| <= |docs|
  {
    if docs != [] {
      var n := |docs| - 1;
      var kept := Dedup(docs[..n], seen);
      DedupDistinct(docs[..n], seen);
      assert docs == docs[..n] + [docs[n]];
      SetsAppend(docs[..n], [docs[n]]);
      assert TextSet([docs[n]]) == {docs[n].text};
      if docs[n].text !in seen + TextSet(docs[..n]) {
        SetsAppend(kept, [docs[n]]);
        DistinctAppend(kept, [docs[n]]);
      }
    }
  }

  /** Deduplicating one more document keeps it exactly when its text is neither in `seen` nor earlier. */
  lemma DedupSnoc(docs: seq<Doc>, d: Doc, seen: set<string>)
    ensures Dedup(docs + [d], seen) == if d.text in seen + TextSet(docs) then Dedup(docs, seen) else Dedup(docs, seen) + [d]
  {
    assert (docs + [d])[..|docs|] == docs;
  }

  /**
   * Reference definition of deduplication: the kept documents are exactly
   * the first occurrences of the texts not in `seen`, in their original order.
   */
  lemma {:induction false} DedupIsFirsts(docs: seq<Doc>, seen: set<string>, n: nat)
    requires n <= |docs|
    ensures Dedup(docs[..n], seen) == Firsts(docs, seen, n)
  {
    if n > 0 {
      var d := docs[n - 1];
      assert docs[..n] == docs[..n - 1] + [d];
      DedupSnoc(docs[..n - 1], d, seen);
      DedupIsFirsts(docs, seen, n - 1);
      if !IsFirst(docs, seen, n - 1) && d.text !in seen {
        var q :| 0 <= q < n - 1 && docs[q].text == d.text;
        TextSetHas(docs[..n - 1], q);
      }
    }
  }
}
