/**
 * The Python built-ins the core relies on, with Python's semantics:
 * slicing (`s[lo:hi]`, `s[:n]`), `sep.join(parts)`, `str.split()` with no
 * argument, and `str(n)` for a non-negative integer.
 */
module Builtins {

  function Min(a: int, b: int): int { if a <= b then a else b }

  function Max(a: int, b: int): int { if a >= b then a else b }

  // ---------------------------------------------------------------- slicing

  /** A slice bound as Python normalises it: a negative bound counts from the end, then it is clamped to [0, len]. */
  function SliceBound(x: int, len: nat): nat
  {
    if x < 0 then (if x + len < 0 then 0 else x + len)
    else if x > len then len
    else x
  }

  /** `s[lo:hi]`. */
  function Slice<T>(s: seq<T>, lo: int, hi: int): seq<T>
  {
    var i := SliceBound(lo, |s|);
    var j := SliceBound(hi, |s|);
    if i < j then s[i..j] else []
  }

  /** With bounds that are not negative, `s[lo:hi]` is cut at the end of `s`. */
  lemma SliceClamped<T>(s: seq<T>, lo: int, hi: int)
    requires 0 <= lo <= hi
    ensures Slice(s, lo, hi) == s[Min(lo, |s|)..Min(hi, |s|)]
  {
  }

  /** `s[:n]`: always a prefix of `s`, holding the first min(n, |s|) elements when n is not negative. */
  function Prefix<T>(s: seq<T>, n: int): (r: seq<T>)
    ensures r <= s
    ensures n >= 0 ==> r == s[..Min(n, |s|)]
  {
    Slice(s, 0, n)
  }

  // ------------------------------------------------------------- substrings

  /** `part` occurs in `whole` starting at index `at`. */
  ghost predicate OccursAt<T>(part: seq<T>, whole: seq<T>, at: int)
  {
    0 <= at && at + |part| <= |whole| && whole[at..at + |part|] == part
  }

  /** `part in whole` for strings. */
  ghost predicate Contains<T>(whole: seq<T>, part: seq<T>)
  {
    exists at :: OccursAt(part, whole, at)
  }

  lemma OccursInMiddle<T>(a: seq<T>, part: seq<T>, b: seq<T>)
    ensures OccursAt(part, a + part + b, |a|)
  {
    assert (a + part + b)[|a|..|a| + |part|] == part;
  }

  lemma OccursAtEnd<T>(a: seq<T>, part: seq<T>)
    ensures OccursAt(part, a + part, |a|)
  {
    assert (a + part)[|a|..] == part;
  }

  /** Appending to `whole` keeps every occurrence in it, and keeps every prefix of it a prefix. */
  lemma Extended<T>(part: seq<T>, whole: seq<T>, at: int, b: seq<T>)
    ensures OccursAt(part, whole, at) ==> OccursAt(part, whole + b, at)
    ensures part <= whole ==> part <= whole + b
  {
    if OccursAt(part, whole, at) {
      assert (whole + b)[at..at + |part|] == whole[at..at + |part|];
    }
    if part <= whole {
      assert (whole + b)[..|part|] == whole[..|part|];
    }
  }

  /** An occurrence inside `whole` is still one, shifted, once text is put around `whole`. */
  lemma OccursShifted<T>(part: seq<T>, whole: seq<T>, at: int, a: seq<T>, b: seq<T>)
    requires OccursAt(part, whole, at)
    ensures OccursAt(part, a + whole + b, |a| + at)
  {
    var s := a + whole + b;
    assert s[|a| + at..|a| + at + |part|] == whole[at..at + |part|];
  }

  // ------------------------------------------------------------------- join

  /** `sep.join(parts)`. */
  function Join(sep: string, parts: seq<string>): (r: string)
    ensures parts == [] ==> r == ""
  {
    if |parts| == 0 then ""
    else if |parts| == 1 then parts[0]
    else parts[0] + sep + Join(sep, parts[1..])
  }

  /** Every part of a join can be found in it. */
  lemma {:induction false} JoinShowsPart(sep: string, parts: seq<string>, i: nat) returns (at: nat)
    requires i < |parts|
    ensures OccursAt(parts[i], Join(sep, parts), at)
  {
    if |parts| == 1 {
      at := 0;
      OccursInMiddle([], parts[0], []);
      assert [] + parts[0] + [] == parts[0];
    } else if i == 0 {
      at := 0;
      OccursInMiddle([], parts[0], sep + Join(sep, parts[1..]));
      assert [] + parts[0] + (sep + Join(sep, parts[1..])) == Join(sep, parts);
    } else {
      var inner := JoinShowsPart(sep, parts[1..], i - 1);
      OccursShifted(parts[i], Join(sep, parts[1..]), inner, parts[0] + sep, []);
      assert parts[0] + sep + Join(sep, parts[1..]) + [] == Join(sep, parts);
      at := |parts[0] + sep| + inner;
    }
  }

  /** A join of parts of at most `bound` characters each is at most that long, plus the separators. */
  lemma {:induction false} JoinLengthBound(sep: string, parts: seq<string>, bound: nat)
    requires forall i :: 0 <= i < |parts| ==> |parts[i]| <= bound
    ensures |Join(sep, parts)| + |sep| <= |parts| * (bound + |sep|) + |sep|
    ensures parts != [] ==> |Join(sep, parts)| + |sep| <= |parts| * (bound + |sep|)
  {
    if |parts| > 1 {
      JoinLengthBound(sep, parts[1..], bound);
      assert |parts| * (bound + |sep|) == (bound + |sep|) + (|parts| - 1) * (bound + |sep|);
    }
  }

  // ------------------------------------------------------------ str.split()

  /** The characters `str.split()` treats as separators (Python's `str.isspace`). */
  predicate IsSpace(c: char)
  {
    || ('\t' <= c <= '\r')
    || ('\U{1C}' <= c <= '\U{1F}')
    || c == ' '
    || c == '\U{85}'
    || c == '\U{A0}'
    || c == '\U{1680}'
    || ('\U{2000}' <= c <= '\U{200A}')
    || c == '\U{2028}'
    || c == '\U{2029}'
    || c == '\U{202F}'
    || c == '\U{205F}'
    || c == '\U{3000}'
  }

  /** A word of `str.split()`: non-empty, without separators. */
  predicate IsWord(w: string)
  {
    |w| > 0 && forall i :: 0 <= i < |w| ==> !IsSpace(w[i])
  }

  /** Every element of `words` is a word. */
  predicate AllWords(words: seq<string>)
  {
    forall i :: 0 <= i < |words| ==> IsWord(words[i])
  }

  /** The number of leading characters of `s` up to its first separator. */
  function WordLength(s: string): (n: nat)
    ensures n <= |s|
  {
    if s == [] || IsSpace(s[0]) then 0 else 1 + WordLength(s[1..])
  }

  /** The leading run is free of separators and is stopped by one (or by the end). */
  lemma {:induction false} WordLengthStops(s: string)
    ensures forall i :: 0 <= i < WordLength(s) ==> !IsSpace(s[i])
    ensures WordLength(s) < |s| ==> IsSpace(s[WordLength(s)])
  {
    if s != [] && !IsSpace(s[0]) {
      WordLengthStops(s[1..]);
      assert forall i :: 1 <= i < |s| ==> s[i] == s[1..][i - 1];
    }
  }

  /** `s.split()`: the maximal runs of non-separator characters, in order. */
  function Split(s: string): seq<string>
    decreases |s|
  {
    if s == [] then []
    else if IsSpace(s[0]) then Split(s[1..])
    else
      var n := WordLength(s);
      [s[..n]] + Split(s[n..])
  }

  /** Every piece `str.split()` returns is a word: non-empty and free of separators. */
  lemma {:induction false} SplitGivesWords(s: string)
    ensures AllWords(Split(s))
    decreases |s|
  {
    if s != [] {
      if IsSpace(s[0]) {
        SplitGivesWords(s[1..]);
      } else {
        var n := WordLength(s);
        SplitGivesWords(s[n..]);
        WordLengthStops(s);
        assert IsWord(s[..n]);
      }
    }
  }

  lemma {:induction false} WordLengthOfWord(w: string, rest: string)
    requires forall i :: 0 <= i < |w| ==> !IsSpace(w[i])
    requires rest == [] || IsSpace(rest[0])
    ensures WordLength(w + rest) == |w|
  {
    if w != [] {
      assert (w + rest)[1..] == w[1..] + rest;
      WordLengthOfWord(w[1..], rest);
    } else {
      assert w + rest == rest;
    }
  }

  /** Splitting a single-space join of words gives those words back. */
  lemma {:induction false} SplitJoin(words: seq<string>)
    requires AllWords(words)
    ensures Split(Join(" ", words)) == words
  {
    if |words| == 1 {
      var w := words[0];
      WordLengthOfWord(w, []);
      assert w + [] == w;
      assert w[..|w|] == w && w[|w|..] == [];
    } else if |words| > 1 {
      var w := words[0];
      var tail := Join(" ", words[1..]);
      var s := w + " " + tail;
      assert s == w + (" " + tail);
      WordLengthOfWord(w, " " + tail);
      assert s[..|w|] == w;
      assert s[|w|..] == " " + tail;
      assert (" " + tail)[1..] == tail;
      SplitJoin(words[1..]);
      assert words == [w] + words[1..];
    }
  }

  /** `s.split()` is empty exactly when `s` is empty or all separators. */
  lemma {:induction false} SplitEmptyIff(s: string)
    ensures Split(s) == [] <==> forall i :: 0 <= i < |s| ==> IsSpace(s[i])
    decreases |s|
  {
    if s != [] {
      SplitEmptyIff(s[1..]);
      assert forall i :: 1 <= i < |s| ==> s[i] == s[1..][i - 1];
    }
  }

  // ----------------------------------------------------------------- str(n)

  function DigitChar(d: nat): (c: char)
    requires d < 10
    ensures '0' <= c <= '9'
  {
    (d + 48) as char
  }

  predicate IsDigits(s: string)
  {
    forall i :: 0 <= i < |s| ==> '0' <= s[i] <= '9'
  }

  /** `str(n)`: decimal digits without a leading zero. */
  function NatToString(n: nat): (s: string)
    ensures |s| >= 1 && IsDigits(s)
    ensures s[0] == '0' ==> s == "0"
  {
    if n < 10 then [DigitChar(n)] else NatToString(n / 10) + [DigitChar(n % 10)]
  }

  /** `int(s)` for a string of decimal digits. */
  function ParseNat(s: string): nat
    requires IsDigits(s)
  {
    if s == [] then 0 else 10 * ParseNat(s[..|s| - 1]) + (s[|s| - 1] as int - 48)
  }

  /** Reading back the digits `str(n)` writes gives `n`: the numbering is unambiguous. */
  lemma {:induction false} ParseNatToString(n: nat)
    ensures ParseNat(NatToString(n)) == n
  {
    if n >= 10 {
      var s := NatToString(n);
      assert s[..|s| - 1] == NatToString(n / 10);
      ParseNatToString(n / 10);
    }
  }
}
