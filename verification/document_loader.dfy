/**
 * Word-window chunking of documents: `split_text` cuts the words of a text
 * into windows of `chunkSize` words whose starts are `chunkSize - overlap`
 * apart, and `chunk_documents` labels every chunk with its document's source
 * and its position within that document.
 */
module DocumentLoader {
  import opened Wrappers
  import opened Builtins

  /** A loaded document, before chunking. */
  datatype SourceDoc = SourceDoc(text: string, source: string)

  /** A chunk record, as chunking emits it and as the vector store returns it (without its distance). */
  datatype Doc = Doc(text: string, source: string, chunkIndex: int)

  /** `range(0, n, 0)` raises: a window stride of zero is an error. */
  datatype ChunkError = ZeroStep

  /** `range(start, stop, step)` for a positive step. */
  function Range(start: nat, stop: int, step: int): seq<nat>
    requires step > 0
    decreases stop - start
  {
    if start >= stop then [] else [start] + Range(start + step, stop, step)
  }

  /** The candidate chunk starting at word `start`: `' '.join(words[start:start + chunkSize])`; the start is never negative, so only the end bound is normalised. */
  function Window(words: seq<string>, chunkSize: int, start: nat): string
  {
    var hi := SliceBound(start + chunkSize, |words|);
    Join(" ", if start < hi then words[start..hi] else [])
  }

  /** The candidate chunks for the given start indices, in order. */
  function Windows(words: seq<string>, chunkSize: int, starts: seq<nat>): (cs: seq<string>)
    ensures |cs| == |starts|
  {
    seq(|starts|, k requires 0 <= k < |starts| => Window(words, chunkSize, starts[k]))
  }

  /** The candidates that pass the `if chunk` guard, in order. */
  function NonEmpty(cs: seq<string>): (r: seq<string>)
    ensures |r| <= |cs|
  {
    if cs == [] then []
    else (if cs[0] == "" then [] else [cs[0]]) + NonEmpty(cs[1..])
  }

  /** What `split_text` returns or raises once the text is split into `words`. */
  function WordChunks(words: seq<string>, chunkSize: int, overlap: int): Result<seq<string>, ChunkError>
  {
    var step := chunkSize - overlap;
    if step == 0 then Failure(ZeroStep)
    else if step < 0 then Success([])
    else Success(NonEmpty(Windows(words, chunkSize, Range(0, |words|, step))))
  }

  /** What `split_text(text, chunkSize, overlap)` returns or raises. */
  function TextChunks(text: string, chunkSize: int, overlap: int): Result<seq<string>, ChunkError>
  {
    WordChunks(Split(text), chunkSize, overlap)
  }

  /** The chunks of one text; the error case, which `chunk_documents` never gets past, gives none. */
  function ChunkList(text: string, chunkSize: int, overlap: int): seq<string>
  {
    match TextChunks(text, chunkSize, overlap)
    case Success(chunks) => chunks
    case Failure(_) => []
  }

  /** The chunk records of one document: its chunks in order, with its source and their positions. */
  function Labelled(chunks: seq<string>, source: string): (r: seq<Doc>)
    ensures |r| == |chunks|
  {
    seq(|chunks|, j requires 0 <= j < |chunks| => Doc(chunks[j], source, j))
  }

  /** The chunk records of all documents, document after document, given each document's chunks. */
  function Flatten(documents: seq<SourceDoc>, lists: seq<seq<string>>): seq<Doc>
    requires |lists| == |documents|
  {
    if documents == [] then []
    else
      var n := |documents| - 1;
      Flatten(documents[..n], lists[..n]) + Labelled(lists[n], documents[n].source)
  }

  /** The chunks of each document, in document order. */
  function ChunkLists(documents: seq<SourceDoc>, chunkSize: int, overlap: int): (lists: seq<seq<string>>)
    ensures |lists| == |documents|
  {
    seq(|documents|, i requires 0 <= i < |documents| => ChunkList(documents[i].text, chunkSize, overlap))
  }

  /** The chunk records of all documents. */
  function AllChunks(documents: seq<SourceDoc>, chunkSize: int, overlap: int): seq<Doc>
  {
    Flatten(documents, ChunkLists(documents, chunkSize, overlap))
  }

  /** What `chunk_documents(documents, chunkSize, overlap)` returns or raises: it raises only if some document is split with a zero stride. */
  function DocumentChunks(documents: seq<SourceDoc>, chunkSize: int, overlap: int): Result<seq<Doc>, ChunkError>
  {
    if documents != [] && chunkSize == overlap then Failure(ZeroStep)
    else Success(AllChunks(documents, chunkSize, overlap))
  }

  lemma NonEmptyCons(c: string, rest: seq<string>)
    ensures NonEmpty([c] + rest) == (if c == "" then [] else [c]) + NonEmpty(rest)
  {
    assert ([c] + rest)[1..] == rest;
  }

  lemma WindowsCons(words: seq<string>, chunkSize: int, start: nat, rest: seq<nat>)
    ensures Windows(words, chunkSize, [start] + rest) == [Window(words, chunkSize, start)] + Windows(words, chunkSize, rest)
  {
    var starts := [start] + rest;
    assert forall k | 0 <= k < |rest| :: starts[k + 1] == rest[k];
  }

  /** The chunks the loop of `split_text` keeps from start index `start` on, one start at a time. */
  function KeptFrom(words: seq<string>, chunkSize: int, step: int, start: nat): seq<string>
    requires step > 0
    decreases |words| - start
  {
    if start >= |words| then []
    else
      var chunk := Window(words, chunkSize, start);
      (if chunk == "" then [] else [chunk]) + KeptFrom(words, chunkSize, step, start + step)
  }

  /** The non-empty windows from `start` on: the window at `start` when non-empty, then those from the next start on. */
  lemma NonEmptyWindowsStep(words: seq<string>, chunkSize: int, step: int, start: nat)
    requires step > 0 && start < |words|
    ensures var chunk := Window(words, chunkSize, start);
            NonEmpty(Windows(words, chunkSize, Range(start, |words|, step)))
            == (if chunk == "" then [] else [chunk]) + NonEmpty(Windows(words, chunkSize, Range(start + step, |words|, step)))
  {
    var rest := Range(start + step, |words|, step);
    assert Range(start, |words|, step) == [start] + rest;
    WindowsCons(words, chunkSize, start, rest);
    NonEmptyCons(Window(words, chunkSize, start), Windows(words, chunkSize, rest));
  }

  /** Keeping windows one start at a time is filtering the windows of all remaining starts. */
  lemma {:induction false} KeptFromWindows(words: seq<string>, chunkSize: int, step: int, start: nat)
    requires step > 0
    ensures KeptFrom(words, chunkSize, step, start) == NonEmpty(Windows(words, chunkSize, Range(start, |words|, step)))
    decreases |words| - start
  {
    if start < |words| {
      var chunk := Window(words, chunkSize, start);
      assert KeptFrom(words, chunkSize, step, start) == (if chunk == "" then [] else [chunk]) + KeptFrom(words, chunkSize, step, start + step);
      KeptFromWindows(words, chunkSize, step, start + step);
      NonEmptyWindowsStep(words, chunkSize, step, start);
    }
  }

  /** The body of the `split_text` loop at start index `start`: append the window there when it is non-empty. */
  method KeepWindow(chunks: seq<string>, words: seq<string>, chunkSize: int, step: int, start: nat) returns (r: seq<string>)
    requires step > 0
    requires start < |words|
    ensures r + KeptFrom(words, chunkSize, step, start + step) == chunks + KeptFrom(words, chunkSize, step, start)
  {
    var chunk := Window(words, chunkSize, start);
    ghost var rest := KeptFrom(words, chunkSize, step, start + step);
    r := chunks;
    if chunk != "" {
      assert chunks + ([chunk] + rest) == (chunks + [chunk]) + rest;
      r := chunks + [chunk];
    } else {
      assert [] + rest == rest;
    }
  }

  /** The strided loop of `split_text` over the start indices of the words. */
  method KeepWindows(words: seq<string>, chunkSize: int, step: int) returns (chunks: seq<string>)
    requires step > 0
    ensures chunks == KeptFrom(words, chunkSize, step, 0)
  {
    chunks := [];
    var i := 0;
    while i < |words|
      invariant chunks + KeptFrom(words, chunkSize, step, i) == KeptFrom(words, chunkSize, step, 0)
      decreases |words| - i
    {
      chunks := KeepWindow(chunks, words, chunkSize, step, i);
      i := i + step;
    }
    assert chunks + [] == chunks;
  }

  /** `split_text` once the text is split into words: the stride check, then the loop. */
  method ChunkWords(words: seq<string>, chunkSize: int, overlap: int) returns (r: Result<seq<string>, ChunkError>)
    ensures r == WordChunks(words, chunkSize, overlap)
  {
    var step := chunkSize - overlap;
    if step == 0 {
      return Failure(ZeroStep);
    }
    var chunks: seq<string> := [];
    if step > 0 {
      chunks := KeepWindows(words, chunkSize, step);
      KeptFromWindows(words, chunkSize, step, 0);
    }
    return Success(chunks);
  }

  /** `split_text`: split the text into words, then cut the words into chunks. */
  method SplitText(text: string, chunkSize: int, overlap: int) returns (r: Result<seq<string>, ChunkError>)
    ensures r == TextChunks(text, chunkSize, overlap)
  {
    var words := Split(text);
    r := ChunkWords(words, chunkSize, overlap);
  }

  /** The inner loop of `chunk_documents`: one record per chunk of a document, numbered from 0. */
  method AppendLabelled(docs: seq<Doc>, chunks: seq<string>, source: string) returns (r: seq<Doc>)
    ensures r == docs + Labelled(chunks, source)
  {
    r := docs;
    ghost var labelled := Labelled(chunks, source);
    for idx := 0 to |chunks|
      invariant r == docs + labelled[..idx]
    {
      r := r + [Doc(chunks[idx], source, idx)];
      assert labelled[..idx + 1] == labelled[..idx] + [labelled[idx]];
    }
    assert labelled[..|chunks|] == labelled;
  }

  /** `chunk_documents`: split each document and label its chunks, in document order. */
  method ChunkDocuments(documents: seq<SourceDoc>, chunkSize: int, overlap: int) returns (r: Result<seq<Doc>, ChunkError>)
    ensures r == DocumentChunks(documents, chunkSize, overlap)
  {
    var chunkedDocs: seq<Doc> := [];
    ghost var lists := ChunkLists(documents, chunkSize, overlap);
    for i := 0 to |documents|
      invariant chunkedDocs == Flatten(documents[..i], lists[..i])
      invariant i > 0 ==> chunkSize != overlap
    {
      var doc := documents[i];
      var split := SplitText(doc.text, chunkSize, overlap);
      if split.Failure? {
        return Failure(split.error);
      }
      var chunks := split.value;
      assert chunks == lists[i];
      chunkedDocs := AppendLabelled(chunkedDocs, chunks, doc.source);
      assert documents[..i + 1][..i] == documents[..i];
      assert lists[..i + 1][..i] == lists[..i];
    }
    assert documents[..|documents|] == documents;
    assert lists[..|documents|] == lists;
    return Success(chunkedDocs);
  }
}
