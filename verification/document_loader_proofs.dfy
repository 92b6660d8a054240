/**
 * Properties of word-window chunking: where each chunk starts, how many chunks
 * there are, that the guard never drops a chunk, that every word is covered,
 * that the chunks reassemble into the words of the text, and how
 * `chunk_documents` places and labels them.
 */
module DocumentLoaderProofs {
  import opened Wrappers
  import opened Builtins
  import opened DocumentLoader

  // ------------------------------------------------------------------ range

  /** `range` starts at `start` and counts up by `step`. */
  lemma {:induction false} RangeNext(start: nat, stop: int, step: int, k: nat)
    requires step > 0
    requires k < |Range(start, stop, step)|
    ensures Range(start, stop, step)[0] == start
    ensures k + 1 < |Range(start, stop, step)| ==> Range(start, stop, step)[k + 1] == Range(start, stop, step)[k] + step
    decreases k
  {
    if k > 0 {
      RangeNext(start + step, stop, step, k - 1);
    }
  }

  /** Every element of `range(start, stop, step)` lies in [start, stop). */
  lemma {:induction false} RangeBounds(start: nat, stop: int, step: int, k: nat)
    requires step > 0
    requires k < |Range(start, stop, step)|
    ensures start <= Range(start, stop, step)[k] < stop
    decreases k
  {
    if k > 0 {
      RangeBounds(start + step, stop, step, k - 1);
    }
  }

  /** `range(start, stop, step)` is empty exactly when start >= stop, and its last element is within one step of `stop`. */
  lemma {:induction false} RangeEnd(start: nat, stop: int, step: int)
    requires step > 0
    ensures |Range(start, stop, step)| == 0 <==> start >= stop
    ensures |Range(start, stop, step)| > 0
            ==> Range(start, stop, step)[|Range(start, stop, step)| - 1] + step >= stop
    decreases stop - start
  {
    if start < stop {
      RangeEnd(start + step, stop, step);
    }
  }

  /** The k-th element of `range(0, n, step)` is k * step. */
  lemma {:induction false} RangeAt(n: int, step: int, k: nat)
    requires step > 0
    requires k < |Range(0, n, step)|
    ensures Range(0, n, step)[k] == k * step
    decreases k
  {
    RangeNext(0, n, step, k);
    if k > 0 {
      RangeAt(n, step, k - 1);
      RangeNext(0, n, step, k - 1);
      assert (k - 1) * step + step == k * step;
    }
  }

  /** Every index at or after `start` and below `stop` falls in the stride of some element of the range. */
  lemma {:induction false} RangeCovers(start: nat, stop: int, step: int, i: int) returns (k: nat)
    requires step > 0
    requires start <= i < stop
    ensures k < |Range(start, stop, step)|
    ensures Range(start, stop, step)[k] <= i < Range(start, stop, step)[k] + step
    decreases stop - start
  {
    if i < start + step {
      k := 0;
    } else {
      var k' := RangeCovers(start + step, stop, step, i);
      k := k' + 1;
    }
  }

  lemma MulNonneg(x: int, b: int)
    requires x >= 0 && b >= 0
    ensures x * b >= 0
  {
  }

  /** Integer division is determined by the bracket a lies in. */
  lemma DivUnique(a: int, b: int, q: int)
    requires b > 0 && q * b <= a < q * b + b
    ensures a / b == q
  {
    var d, r := a / b, a % b;
    assert a == d * b + r && 0 <= r < b;
    assert (d - q - 1) * b == d * b - q * b - b;
    assert (q - d - 1) * b == q * b - d * b - b;
    if d > q {
      MulNonneg(d - q - 1, b);
    } else if d < q {
      MulNonneg(q - d - 1, b);
    }
  }

  /** `len(range(0, n, step))` is the ceiling of n / step. */
  lemma RangeCount(n: nat, step: int)
    requires step > 0
    ensures |Range(0, n, step)| == (n + step - 1) / step
  {
    var m := |Range(0, n, step)|;
    RangeEnd(0, n, step);
    if m > 0 {
      RangeAt(n, step, m - 1);
      RangeBounds(0, n, step, m - 1);
      assert (m - 1) * step + step == m * step;
    }
    DivUnique(n + step - 1, step, m);
  }

  // ---------------------------------------------------------------- windows

  /** With a start that is not negative, a window is the Python slice `words[start:start + chunkSize]` joined. */
  lemma WindowIsSlice(words: seq<string>, chunkSize: int, start: nat)
    ensures Window(words, chunkSize, start) == Join(" ", Slice(words, start, start + chunkSize))
  {
  }

  lemma WordsAreWords(words: seq<string>, lo: nat, hi: nat)
    requires lo <= hi <= |words|
    requires AllWords(words)
    ensures AllWords(words[lo..hi])
  {
  }

  /**
   * A window inside the words with a positive chunk size joins the words
   * start .. start + chunkSize (cut at the end): it is non-empty, holds between
   * 1 and chunkSize words, and splits back into exactly them.
   */
  lemma WindowWords(words: seq<string>, chunkSize: int, start: nat)
    requires chunkSize > 0
    requires AllWords(words)
    requires start < |words|
    ensures var part := words[start..Min(start + chunkSize, |words|)];
            && Window(words, chunkSize, start) == Join(" ", part)
            && Split(Window(words, chunkSize, start)) == part
            && 1 <= |part| <= chunkSize
            && Window(words, chunkSize, start) != ""
  {
    var part := words[start..Min(start + chunkSize, |words|)];
    assert Window(words, chunkSize, start) == Join(" ", part);
    assert Split(Join(" ", part)) == part by {
      WordsAreWords(words, start, Min(start + chunkSize, |words|));
      SplitJoin(part);
    }
    assert Join(" ", part) != "" by {
      assert Split("") == [];
    }
  }

  lemma {:induction false} NonEmptyKeepsAll(cs: seq<string>)
    requires forall i :: 0 <= i < |cs| ==> cs[i] != ""
    ensures NonEmpty(cs) == cs
  {
    if cs != [] {
      NonEmptyKeepsAll(cs[1..]);
      assert [cs[0]] + cs[1..] == cs;
    }
  }

  /** For 0 <= overlap < chunkSize, the `if chunk` guard drops nothing: every window is a chunk. */
  lemma WindowsAreChunks(words: seq<string>, chunkSize: int, overlap: int)
    requires 0 <= overlap < chunkSize
    requires AllWords(words)
    ensures WordChunks(words, chunkSize, overlap)
            == Success(Windows(words, chunkSize, Range(0, |words|, chunkSize - overlap)))
  {
    var step := chunkSize - overlap;
    var starts := Range(0, |words|, step);
    var all := Windows(words, chunkSize, starts);
    forall k | 0 <= k < |all|
      ensures all[k] != ""
    {
      RangeBounds(0, |words|, step, k);
      WindowWords(words, chunkSize, starts[k]);
    }
    NonEmptyKeepsAll(all);
  }

  /** For 0 <= overlap < chunkSize, `split_text` succeeds and its chunks are exactly the windows at 0, step, 2 * step, ... */
  lemma ChunksAreWindows(text: string, chunkSize: int, overlap: int)
    requires 0 <= overlap < chunkSize
    ensures TextChunks(text, chunkSize, overlap)
            == Success(Windows(Split(text), chunkSize, Range(0, |Split(text)|, chunkSize - overlap)))
  {
    SplitGivesWords(text);
    WindowsAreChunks(Split(text), chunkSize, overlap);
  }

  /**
   * For 0 <= overlap < chunkSize, chunk j of `split_text` over the words of a
   * text (step = chunkSize - overlap) is the single-space join of the words
   * j * step .. j * step + chunkSize (cut at the last word): it is non-empty,
   * holds at most chunkSize words and splits back into exactly those words.
   */
  lemma ChunkAt(words: seq<string>, chunkSize: int, overlap: int, chunks: seq<string>, j: nat)
    requires 0 <= overlap < chunkSize
    requires AllWords(words)
    requires WordChunks(words, chunkSize, overlap) == Success(chunks)
    requires j < |chunks|
    ensures var lo := j * (chunkSize - overlap);
            && 0 <= lo < |words|
            && chunks[j] == Join(" ", words[lo..Min(lo + chunkSize, |words|)])
            && Split(chunks[j]) == words[lo..Min(lo + chunkSize, |words|)]
            && 1 <= |Split(chunks[j])| <= chunkSize
            && chunks[j] != ""
  {
    var step := chunkSize - overlap;
    WindowsAreChunks(words, chunkSize, overlap);
    RangeAt(|words|, step, j);
    RangeBounds(0, |words|, step, j);
    WindowWords(words, chunkSize, j * step);
  }

  /** For 0 <= overlap < chunkSize, `split_text` returns ⌈n / (chunkSize - overlap)⌉ chunks for a text of n words. */
  lemma SplitTextCount(text: string, chunkSize: int, overlap: int)
    requires 0 <= overlap < chunkSize
    ensures TextChunks(text, chunkSize, overlap).Success?
    ensures |TextChunks(text, chunkSize, overlap).value|
            == (|Split(text)| + (chunkSize - overlap) - 1) / (chunkSize - overlap)
  {
    ChunksAreWindows(text, chunkSize, overlap);
    RangeCount(|Split(text)|, chunkSize - overlap);
  }

  /**
   * The degenerate parameters: equal chunk size and overlap raise, a larger
   * overlap gives no chunks, and whitespace-only (or empty) text gives no chunks
   * for any non-zero stride; for 0 <= overlap < chunkSize that is the only way
   * to get none.
   */
  lemma ChunkingEdgeCases(text: string, chunkSize: int, overlap: int)
    ensures chunkSize == overlap <==> TextChunks(text, chunkSize, overlap).Failure?
    ensures chunkSize < overlap ==> TextChunks(text, chunkSize, overlap) == Success([])
    ensures chunkSize != overlap && (forall i :: 0 <= i < |text| ==> IsSpace(text[i]))
            ==> TextChunks(text, chunkSize, overlap) == Success([])
    ensures 0 <= overlap < chunkSize
            ==> (TextChunks(text, chunkSize, overlap) == Success([])
                 <==> forall i :: 0 <= i < |text| ==> IsSpace(text[i]))
  {
    SplitEmptyIff(text);
    var words, step := Split(text), chunkSize - overlap;
    if step > 0 {
      RangeEnd(0, |words|, step);
    }
    if 0 <= overlap < chunkSize {
      ChunksAreWindows(text, chunkSize, overlap);
    }
  }

  /** There is one chunk per start index. */
  lemma ChunkPerStart(words: seq<string>, chunkSize: int, overlap: int, chunks: seq<string>)
    requires 0 <= overlap < chunkSize
    requires AllWords(words)
    requires WordChunks(words, chunkSize, overlap) == Success(chunks)
    ensures |chunks| == |Range(0, |words|, chunkSize - overlap)|
  {
    WindowsAreChunks(words, chunkSize, overlap);
  }

  lemma SliceAt(words: seq<string>, lo: nat, hi: nat, i: nat)
    requires lo <= i < hi <= |words|
    ensures words[lo..hi][i - lo] == words[i]
  {
  }

  /** Quotient and remainder are determined by the bracket i lies in. */
  lemma DivModIn(i: int, step: int, k: int)
    requires step > 0 && k * step <= i < k * step + step
    ensures i / step == k
    ensures i % step == i - k * step
  {
    DivUnique(i, step, k);
  }

  /** Every word lands in chunk i / step, at position i % step (step = chunkSize - overlap): no word is skipped. */
  lemma Coverage(words: seq<string>, chunkSize: int, overlap: int, chunks: seq<string>, i: nat)
    requires 0 <= overlap < chunkSize
    requires AllWords(words)
    requires WordChunks(words, chunkSize, overlap) == Success(chunks)
    requires i < |words|
    ensures var step := chunkSize - overlap;
            && i / step < |chunks|
            && i % step < |Split(chunks[i / step])|
            && Split(chunks[i / step])[i % step] == words[i]
  {
    var step := chunkSize - overlap;
    ChunkPerStart(words, chunkSize, overlap, chunks);
    var k := RangeCovers(0, |words|, step, i);
    RangeAt(|words|, step, k);
    DivModIn(i, step, k);
    ChunkAt(words, chunkSize, overlap, chunks, k);
    SliceAt(words, k * step, Min(k * step + chunkSize, |words|), i);
  }

  // ------------------------------------------------------------- round trip

  /** Each later word list without its first `overlap` words (`words[overlap:]`), concatenated. */
  function Tails(parts: seq<seq<string>>, overlap: int): seq<string>
  {
    if parts == [] then [] else Slice(parts[0], overlap, |parts[0]|) + Tails(parts[1..], overlap)
  }

  /** Reading words back from word lists: all of the first, then the rest without their overlap. */
  function ReassembleParts(parts: seq<seq<string>>, overlap: int): seq<string>
  {
    if parts == [] then [] else parts[0] + Tails(parts[1..], overlap)
  }

  /** The words of each chunk, in order. */
  function SplitAll(chunks: seq<string>): (parts: seq<seq<string>>)
    ensures |parts| == |chunks|
  {
    if chunks == [] then [] else [Split(chunks[0])] + SplitAll(chunks[1..])
  }

  /** Reading the words back from chunks: split each chunk, then reassemble. */
  function Reassemble(chunks: seq<string>, overlap: int): seq<string>
  {
    ReassembleParts(SplitAll(chunks), overlap)
  }

  /** The word spans `words[s:s + chunkSize]` for s = start, start + step, ... below the number of words. */
  function Spans(words: seq<string>, chunkSize: int, step: int, start: nat): seq<seq<string>>
    requires 0 < step <= chunkSize
    decreases |words| - start
  {
    if start >= |words| then []
    else [words[start..Min(start + chunkSize, |words|)]] + Spans(words, chunkSize, step, start + step)
  }

  lemma SplitAllCons(c: string, rest: seq<string>)
    ensures SplitAll([c] + rest) == [Split(c)] + SplitAll(rest)
  {
    assert ([c] + rest)[1..] == rest;
  }

  /** `s[n:]` for n >= 0. */
  lemma DropFront(s: seq<string>, n: int)
    requires n >= 0
    ensures Slice(s, n, |s|) == if n <= |s| then s[n..] else []
  {
  }

  /** Splitting the windows from `start` on gives the word spans from `start` on. */
  lemma {:induction false} SplitWindows(words: seq<string>, chunkSize: int, step: int, start: nat)
    requires 0 < step <= chunkSize
    requires AllWords(words)
    ensures SplitAll(Windows(words, chunkSize, Range(start, |words|, step))) == Spans(words, chunkSize, step, start)
    decreases |words| - start
  {
    if start < |words| {
      var rest := Range(start + step, |words|, step);
      assert Range(start, |words|, step) == [start] + rest;
      WindowsCons(words, chunkSize, start, rest);
      SplitAllCons(Window(words, chunkSize, start), Windows(words, chunkSize, rest));
      WindowWords(words, chunkSize, start);
      SplitWindows(words, chunkSize, step, start + step);
    }
  }

  lemma TailsCons(part: seq<string>, rest: seq<seq<string>>, overlap: int)
    ensures Tails([part] + rest, overlap) == Slice(part, overlap, |part|) + Tails(rest, overlap)
  {
    assert ([part] + rest)[1..] == rest;
  }

  /** Dropping `overlap` words from the span at `start` leaves the words from start + overlap to the span's end. */
  lemma SpanTail(words: seq<string>, chunkSize: int, overlap: int, start: nat)
    requires 0 <= overlap <= chunkSize
    requires start < |words|
    ensures var span := words[start..Min(start + chunkSize, |words|)];
            Slice(span, overlap, |span|) == words[Min(start + overlap, |words|)..Min(start + chunkSize, |words|)]
  {
    DropFront(words[start..Min(start + chunkSize, |words|)], overlap);
  }

  lemma Splice(words: seq<string>, mid: nat, hi: nat)
    requires mid <= hi <= |words|
    ensures words[mid..hi] + words[hi..] == words[mid..]
  {
  }

  /** One step of `TailsSpans`: the span at `start` adds the words from start + overlap up to the next span's overlap. */
  lemma TailsSpansStep(words: seq<string>, chunkSize: int, step: int, start: nat)
    requires 0 < step <= chunkSize
    requires start < |words|
    requires Tails(Spans(words, chunkSize, step, start + step), chunkSize - step)
             == words[Min(start + chunkSize, |words|)..]
    ensures Tails(Spans(words, chunkSize, step, start), chunkSize - step)
            == words[Min(start + chunkSize - step, |words|)..]
  {
    var overlap := chunkSize - step;
    var span := words[start..Min(start + chunkSize, |words|)];
    var rest := Spans(words, chunkSize, step, start + step);
    TailsCons(span, rest, overlap);
    SpanTail(words, chunkSize, overlap, start);
    Splice(words, Min(start + overlap, |words|), Min(start + chunkSize, |words|));
  }

  /** The spans from `start` on, each without its overlap, give the words from the end of the span before `start` on. */
  lemma {:induction false} TailsSpans(words: seq<string>, chunkSize: int, step: int, start: nat)
    requires 0 < step <= chunkSize
    ensures Tails(Spans(words, chunkSize, step, start), chunkSize - step)
            == words[Min(start + chunkSize - step, |words|)..]
    decreases |words| - start
  {
    if start < |words| {
      TailsSpans(words, chunkSize, step, start + step);
      assert start + step + chunkSize - step == start + chunkSize;
      TailsSpansStep(words, chunkSize, step, start);
    } else {
      assert words[|words|..] == [];
    }
  }

  lemma ReassembleCons(part: seq<string>, rest: seq<seq<string>>, overlap: int)
    ensures ReassembleParts([part] + rest, overlap) == part + Tails(rest, overlap)
  {
    assert ([part] + rest)[1..] == rest;
  }

  lemma PrefixSplice(words: seq<string>, m: nat)
    requires m <= |words|
    ensures words[0..m] + words[m..] == words
  {
  }

  /** The word spans from 0 on reassemble into all the words. */
  lemma SpansRoundTrip(words: seq<string>, chunkSize: int, step: int)
    requires 0 < step <= chunkSize
    ensures ReassembleParts(Spans(words, chunkSize, step, 0), chunkSize - step) == words
  {
    if |words| > 0 {
      var first := words[0..Min(chunkSize, |words|)];
      var rest := Spans(words, chunkSize, step, step);
      ReassembleCons(first, rest, chunkSize - step);
      TailsSpans(words, chunkSize, step, step);
      PrefixSplice(words, Min(chunkSize, |words|));
    }
  }

  /** For 0 < step <= chunkSize the windows reassemble into exactly the words. */
  lemma WindowsRoundTrip(words: seq<string>, chunkSize: int, step: int)
    requires 0 < step <= chunkSize
    requires AllWords(words)
    ensures Reassemble(Windows(words, chunkSize, Range(0, |words|, step)), chunkSize - step) == words
  {
    SplitWindows(words, chunkSize, step, 0);
    SpansRoundTrip(words, chunkSize, step);
  }

  /** Round trip: for 0 <= overlap < chunkSize the chunks of the words of a text reassemble into exactly those words. */
  lemma RoundTrip(words: seq<string>, chunkSize: int, overlap: int, chunks: seq<string>)
    requires 0 <= overlap < chunkSize
    requires AllWords(words)
    requires WordChunks(words, chunkSize, overlap) == Success(chunks)
    ensures Reassemble(chunks, overlap) == words
  {
    WindowsAreChunks(words, chunkSize, overlap);
    WindowsRoundTrip(words, chunkSize, chunkSize - overlap);
  }

  /** The same for a text: its chunks reassemble into exactly `text.split()`. */
  lemma TextRoundTrip(text: string, chunkSize: int, overlap: int, chunks: seq<string>)
    requires 0 <= overlap < chunkSize
    requires TextChunks(text, chunkSize, overlap) == Success(chunks)
    ensures Reassemble(chunks, overlap) == Split(text)
  {
    SplitGivesWords(text);
    RoundTrip(Split(text), chunkSize, overlap, chunks);
  }

  // -------------------------------------------------------- chunk_documents

  /** The number of chunks in all the lists. */
  function Total(lists: seq<seq<string>>): nat
  {
    if lists == [] then 0 else Total(lists[..|lists| - 1]) + |lists[|lists| - 1]|
  }

  /** Flattening emits one record per chunk. */
  lemma {:induction false} FlattenCount(documents: seq<SourceDoc>, lists: seq<seq<string>>)
    requires |lists| == |documents|
    ensures |Flatten(documents, lists)| == Total(lists)
  {
    if documents != [] {
      var n := |documents| - 1;
      FlattenCount(documents[..n], lists[..n]);
    }
  }

  /** Chunk j of list i sits right after the chunks of the lists before it, with document i's source and index j. */
  lemma {:induction false} FlattenPlacement(documents: seq<SourceDoc>, lists: seq<seq<string>>, i: nat, j: nat)
    requires |lists| == |documents|
    requires i < |documents|
    requires j < |lists[i]|
    ensures Total(lists[..i]) + j < |Flatten(documents, lists)|
    ensures Flatten(documents, lists)[Total(lists[..i]) + j] == Doc(lists[i][j], documents[i].source, j)
  {
    var n := |documents| - 1;
    FlattenCount(documents[..n], lists[..n]);
    if i == n {
      assert lists[..i] == lists[..n];
    } else {
      FlattenPlacement(documents[..n], lists[..n], i, j);
      assert lists[..n][..i] == lists[..i];
    }
  }

  /** `chunk_documents` raises only for a zero stride with some document to split; otherwise it emits every chunk of every document. */
  lemma ChunkDocumentsOutcome(documents: seq<SourceDoc>, chunkSize: int, overlap: int)
    ensures DocumentChunks(documents, chunkSize, overlap).Failure?
            <==> documents != [] && chunkSize == overlap
    ensures DocumentChunks(documents, chunkSize, overlap).Success?
            ==> |DocumentChunks(documents, chunkSize, overlap).value| == Total(ChunkLists(documents, chunkSize, overlap))
  {
    FlattenCount(documents, ChunkLists(documents, chunkSize, overlap));
  }

  /**
   * Chunk j of document i sits right after the chunks of the documents before
   * it, with that document's source and chunk index j: order is preserved, each
   * document contributes exactly its `split_text` chunks, and the indices run
   * 0..m-1 per document.
   */
  lemma ChunkDocumentsPlacement(documents: seq<SourceDoc>, chunkSize: int, overlap: int, i: nat, j: nat)
    requires i < |documents|
    requires j < |ChunkList(documents[i].text, chunkSize, overlap)|
    ensures DocumentChunks(documents, chunkSize, overlap).Success?
    ensures var at := Total(ChunkLists(documents, chunkSize, overlap)[..i]) + j;
            var chunks := DocumentChunks(documents, chunkSize, overlap).value;
            && at < |chunks|
            && chunks[at] == Doc(ChunkList(documents[i].text, chunkSize, overlap)[j], documents[i].source, j)
  {
    var lists := ChunkLists(documents, chunkSize, overlap);
    assert lists[i] == ChunkList(documents[i].text, chunkSize, overlap);
    FlattenPlacement(documents, lists, i, j);
  }
}
