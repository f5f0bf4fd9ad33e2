/** `tools::splitByWhitespace`: the hand-written do-while tokenizer of tools/stringTools.h,
    proved against the maximal runs of non-whitespace characters of its input. */
module StringTools {
  import opened Wrappers

  /** The four separators the tokenizer knows: space, tab, carriage return and line feed.
      Vertical tab, form feed and every other character belong to an element. */
  predicate IsWhitespace(c: char) {
    c == ' ' || c == '\t' || c == '\r' || c == '\n'
  }

  predicate AllWhitespace(s: string) {
    forall i :: 0 <= i < |s| ==> IsWhitespace(s[i])
  }

  predicate NoWhitespace(s: string) {
    forall i :: 0 <= i < |s| ==> !IsWhitespace(s[i])
  }

  /** `s.find_first_not_of(whitespace, from)`; `None` is `npos`, also when `from` is past the end. */
  function FindFirstNotOf(s: string, from: nat): (r: Option<nat>)
    ensures r.Some? ==> from <= r.value < |s| && !IsWhitespace(s[r.value])
    ensures r.Some? ==> forall j :: from <= j < r.value ==> IsWhitespace(s[j])
    ensures r.None? ==> forall j :: from <= j < |s| ==> IsWhitespace(s[j])
    decreases |s| - from
  {
    if from >= |s| then None
    else if !IsWhitespace(s[from]) then Some(from)
    else FindFirstNotOf(s, from + 1)
  }

  /** `s.find_first_of(whitespace, from)`; `None` is `npos`. */
  function FindFirstOf(s: string, from: nat): (r: Option<nat>)
    ensures r.Some? ==> from <= r.value < |s| && IsWhitespace(s[r.value])
    ensures r.Some? ==> forall j :: from <= j < r.value ==> !IsWhitespace(s[j])
    ensures r.None? ==> forall j :: from <= j < |s| ==> !IsWhitespace(s[j])
    decreases |s| - from
  {
    if from >= |s| then None
    else if IsWhitespace(s[from]) then Some(from)
    else FindFirstOf(s, from + 1)
  }

  /** Length of the run of non-whitespace characters that starts `s`: the run is maximal. */
  function RunLength(s: string): (n: nat)
    ensures n <= |s|
    ensures forall i :: 0 <= i < n ==> !IsWhitespace(s[i])
    ensures n < |s| ==> IsWhitespace(s[n])
  {
    if s == [] || IsWhitespace(s[0]) then 0 else 1 + RunLength(s[1..])
  }

  /** The maximal runs of non-whitespace characters of `s`, left to right. Each is non-empty
      and holds no separator. */
  function Words(s: string): (r: seq<string>)
    ensures forall i :: 0 <= i < |r| ==> r[i] != [] && NoWhitespace(r[i])
    decreases |s|
  {
    if s == [] then []
    else if IsWhitespace(s[0]) then Words(s[1..])
    else
      var n := RunLength(s);
      [s[..n]] + Words(s[n..])
  }

  /** What `splitByWhitespace` returns: the words of `s`, or the single empty string when `s` has none.
      The result is never empty. */
  function Split(s: string): (r: seq<string>)
    ensures |r| >= 1
  {
    var w := Words(s);
    if w == [] then [""] else w
  }

  /** The do-while loop of tools/stringTools.h:11-27. `current` is `currentPosition`, `nextDelimiter`
      is `nextDelimeter` with `None` for `npos`; `more` is the loop condition, evaluated at the end. */
  method SplitByWhitespace(s: string) returns (r: seq<string>)
    ensures r == Split(s)
  {
    r := [];
    var current: nat := 0;
    var nextDelimiter: Option<nat> := Some(0);
    var more := true;
    while more
      invariant current <= |s|
      invariant r == [] ==> more && current == 0
      invariant r != [] && more ==> current < |s| && !IsWhitespace(s[current]) && r + Words(s[current..]) == Words(s)
      invariant !more ==> r == Split(s)
      decreases |s| - current + (if more then 1 else 0)
    {
      ghost var first := r == [];
      // skip over any leading whitespace
      var start := FindFirstNotOf(s, current);
      if start.Some? {
        current := start.value;
      }
      // the element runs up to the next separator, or to the end
      nextDelimiter := FindFirstOf(s, current);
      var element := if nextDelimiter.Some? then s[current..nextDelimiter.value] else s[current..];
      ghost var end := if nextDelimiter.Some? then nextDelimiter.value else |s|;
      if first && start.None? {
        BlankSplit(s);
        assert element == [];
      } else {
        if first {
          WordsSkipWhitespace(s, 0, current);
          assert s[0..] == s;
        }
        NextWord(s, r, current, end);
        assert element == s[current..end];
      }
      r := r + [element];
      // skip over any trailing whitespace
      if nextDelimiter.Some? {
        var after := FindFirstNotOf(s, nextDelimiter.value);
        if after.Some? {
          WordsSkipWhitespace(s, end, after.value);
          current := after.value;
        } else {
          if !(first && start.None?) {
            LastWord(s, r, end);
          }
          nextDelimiter := None;
        }
      } else if !(first && start.None?) {
        LastWord(s, r, |s|);
      }
      more := nextDelimiter.Some?;
    }
  }

  // ---------------------------------------------------------------------------------------------
  // Lemmas about Words that the tokenizer's proof rests on

  /** One step of the tokenizer: the run from `current` to `end` is the next word. */
  lemma NextWord(s: string, r: seq<string>, current: nat, end: nat)
    requires current < end <= |s|
    requires forall k :: current <= k < end ==> !IsWhitespace(s[k])
    requires end < |s| ==> IsWhitespace(s[end])
    requires r + Words(s[current..]) == Words(s)
    ensures (r + [s[current..end]]) + Words(s[end..]) == Words(s)
  {
    WordsAtRun(s, current, end);
    AppendAssociative(r, [s[current..end]], Words(s[end..]));
  }

  lemma AppendAssociative<T>(a: seq<T>, b: seq<T>, c: seq<T>)
    ensures (a + b) + c == a + (b + c)
  {
  }

  /** The last step: only whitespace is left, so the words found are all of them. */
  lemma LastWord(s: string, r: seq<string>, end: nat)
    requires end <= |s|
    requires forall k :: end <= k < |s| ==> IsWhitespace(s[k])
    requires r != [] && r + Words(s[end..]) == Words(s)
    ensures r == Split(s)
  {
    WordsSkipWhitespace(s, end, |s|);
    assert s[|s|..] == [];
    assert r + [] == r;
  }

  /** A blank input splits into the single empty string. */
  lemma BlankSplit(s: string)
    requires AllWhitespace(s)
    ensures Split(s) == [""]
  {
    WordsOfBlank(s);
  }

  /** Whitespace between positions `i` and `j` contributes no word. */
  lemma {:induction false} WordsSkipWhitespace(s: string, i: nat, j: nat)
    requires i <= j <= |s|
    requires forall k :: i <= k < j ==> IsWhitespace(s[k])
    ensures Words(s[i..]) == Words(s[j..])
    decreases j - i
  {
    if i < j {
      assert s[i..][1..] == s[i + 1..];
      WordsSkipWhitespace(s, i + 1, j);
    }
  }

  /** A maximal run from `i` to `e` is the next word. */
  lemma WordsAtRun(s: string, i: nat, e: nat)
    requires i < e <= |s|
    requires forall k :: i <= k < e ==> !IsWhitespace(s[k])
    requires e < |s| ==> IsWhitespace(s[e])
    ensures Words(s[i..]) == [s[i..e]] + Words(s[e..])
  {
    var t := s[i..];
    var n := RunLength(t);
    assert forall k :: 0 <= k < |t| ==> t[k] == s[i + k];
    assert n == e - i;
    assert t[..n] == s[i..e];
    assert t[n..] == s[e..];
  }

  /** A string made only of separators has no words. */
  lemma WordsOfBlank(s: string)
    requires AllWhitespace(s)
    ensures Words(s) == []
  {
    WordsSkipWhitespace(s, 0, |s|);
    assert s[0..] == s;
  }

  /** Conversely, a string with no words is made only of separators. */
  lemma {:induction false} BlankOfWords(s: string)
    requires Words(s) == []
    ensures AllWhitespace(s)
    decreases |s|
  {
    if s != [] {
      assert IsWhitespace(s[0]);
      BlankOfWords(s[1..]);
      assert forall i :: 1 <= i < |s| ==> s[i] == s[1..][i - 1];
    }
  }

  // ---------------------------------------------------------------------------------------------
  // Properties of the tokenizer's result

  /** The result is exactly `[""]` if and only if the input is empty or made only of space, tab, CR and LF. */
  lemma SplitBlankIff(s: string)
    ensures Split(s) == [""] <==> AllWhitespace(s)
  {
    if AllWhitespace(s) {
      WordsOfBlank(s);
    } else if Words(s) == [] {
      BlankOfWords(s);
    } else {
      assert Words(s)[0] != [];
    }
  }

  /** When the input holds something other than separators, every element is non-empty and separator-free. */
  lemma SplitElementsAreWords(s: string)
    requires !AllWhitespace(s)
    ensures forall i :: 0 <= i < |Split(s)| ==> Split(s)[i] != [] && NoWhitespace(Split(s)[i])
  {
    SplitBlankIff(s);
  }

  /** `s` with every separator removed. */
  function RemoveWhitespace(s: string): (r: string)
    ensures NoWhitespace(r)
    ensures |r| <= |s|
  {
    if s == [] then []
    else if IsWhitespace(s[0]) then RemoveWhitespace(s[1..])
    else [s[0]] + RemoveWhitespace(s[1..])
  }

  function Concat(ws: seq<string>): string {
    if ws == [] then [] else ws[0] + Concat(ws[1..])
  }

  lemma {:induction false} RemoveWhitespaceOfRun(s: string, n: nat)
    requires n <= |s|
    requires forall k :: 0 <= k < n ==> !IsWhitespace(s[k])
    ensures RemoveWhitespace(s) == s[..n] + RemoveWhitespace(s[n..])
    decreases n
  {
    if n > 0 {
      RemoveWhitespaceOfRun(s[1..], n - 1);
      assert s[1..][..n - 1] == s[1..n];
      assert s[1..][n - 1..] == s[n..];
      assert s[..n] == [s[0]] + s[1..n];
    }
  }

  /** The words, concatenated in order, are the input with its separators removed. */
  lemma {:induction false} ConcatWords(s: string)
    ensures Concat(Words(s)) == RemoveWhitespace(s)
    decreases |s|
  {
    if s != [] {
      if IsWhitespace(s[0]) {
        ConcatWords(s[1..]);
      } else {
        var n := RunLength(s);
        ConcatWords(s[n..]);
        RemoveWhitespaceOfRun(s, n);
        assert ([s[..n]] + Words(s[n..]))[1..] == Words(s[n..]);
      }
    }
  }

  /** The elements, concatenated in order, are the input with its separators removed
      (for a blank input the single element is empty). */
  lemma ConcatSplit(s: string)
    ensures Concat(Split(s)) == RemoveWhitespace(s)
  {
    ConcatWords(s);
    if Words(s) == [] {
      assert Concat([""]) == "" + Concat([]);
    }
  }

  /** A position where a maximal run ends: a non-separator followed by a separator or by the end. */
  predicate RunEndsAt(s: string, i: nat)
    requires i < |s|
  {
    !IsWhitespace(s[i]) && (i + 1 == |s| || IsWhitespace(s[i + 1]))
  }

  /** The number of maximal runs of non-separators in `s`, counted by their last characters. */
  function RunCount(s: string): nat {
    if s == [] then 0 else (if RunEndsAt(s, 0) then 1 else 0) + RunCount(s[1..])
  }

  lemma {:induction false} RunCountOfRun(s: string)
    requires s != [] && !IsWhitespace(s[0])
    ensures RunCount(s) == 1 + RunCount(s[RunLength(s)..])
    decreases |s|
  {
    var n := RunLength(s);
    if n > 1 {
      assert !IsWhitespace(s[1]);
      RunCountOfRun(s[1..]);
      assert RunLength(s[1..]) == n - 1;
      assert s[1..][n - 1..] == s[n..];
    }
  }

  /** There is one word per maximal run of non-separators. */
  lemma {:induction false} WordCountIsRunCount(s: string)
    ensures |Words(s)| == RunCount(s)
    decreases |s|
  {
    if s != [] {
      if IsWhitespace(s[0]) {
        WordCountIsRunCount(s[1..]);
      } else {
        var n := RunLength(s);
        RunCountOfRun(s);
        WordCountIsRunCount(s[n..]);
      }
    }
  }

  lemma {:induction false} RunLengthOfAppend(s: string, b: string)
    requires AllWhitespace(b)
    ensures RunLength(s + b) == RunLength(s)
    decreases |s|
  {
    if s != [] && !IsWhitespace(s[0]) {
      assert (s + b)[1..] == s[1..] + b;
      RunLengthOfAppend(s[1..], b);
    } else if s == [] {
      assert s + b == b;
    }
  }

  lemma {:induction false} WordsOfAppendBlank(s: string, b: string)
    requires AllWhitespace(b)
    ensures Words(s + b) == Words(s)
    decreases |s|
  {
    if s == [] {
      assert s + b == b;
      WordsOfBlank(b);
    } else {
      assert (s + b)[1..] == s[1..] + b;
      if IsWhitespace(s[0]) {
        WordsOfAppendBlank(s[1..], b);
      } else {
        var n := RunLength(s);
        RunLengthOfAppend(s, b);
        assert (s + b)[..n] == s[..n];
        assert (s + b)[n..] == s[n..] + b;
        WordsOfAppendBlank(s[n..], b);
      }
    }
  }

  /** Leading and trailing separators add no element. */
  lemma SplitIgnoresOuterWhitespace(a: string, s: string, b: string)
    requires AllWhitespace(a) && AllWhitespace(b)
    ensures Split(a + s + b) == Split(s)
  {
    var t := a + s + b;
    WordsSkipWhitespace(t, 0, |a|);
    assert t[0..] == t;
    assert t[|a|..] == s + b;
    WordsOfAppendBlank(s, b);
  }

  /** A non-empty string free of the four separators is a single element, whatever else it holds
      (vertical tab and form feed included). */
  lemma SplitWord(w: string)
    requires w != [] && NoWhitespace(w)
    ensures Split(w) == [w]
  {
    WordsAtRun(w, 0, |w|);
    assert w[0..] == w && w[0..|w|] == w;
    assert w[|w|..] == [];
  }

  /** Splitting an element of a result again gives just that element: splitting is idempotent
      on its own output. */
  lemma SplitIdempotent(s: string, i: nat)
    requires i < |Split(s)|
    ensures Split(Split(s)[i]) == [Split(s)[i]]
  {
    if Words(s) != [] {
      SplitWord(Split(s)[i]);
    }
  }

  /** Vertical tab (0x0B) and form feed (0x0C) do not separate elements. */
  lemma OnlyFourSeparators()
    ensures Split("a\U{B}b\U{C}c") == ["a\U{B}b\U{C}c"]
  {
    SplitWord("a\U{B}b\U{C}c");
  }

  /** Words joined with single spaces. */
  function JoinWithSpaces(ws: seq<string>): string
    decreases |ws|
  {
    if ws == [] then [] else if |ws| == 1 then ws[0] else ws[0] + " " + JoinWithSpaces(ws[1..])
  }

  /** Splitting undoes joining: a non-empty list of non-empty, separator-free words joined with
      spaces splits back into that list. */
  lemma {:induction false} SplitJoinRoundTrip(ws: seq<string>)
    requires ws != []
    requires forall i :: 0 <= i < |ws| ==> ws[i] != [] && NoWhitespace(ws[i])
    ensures Split(JoinWithSpaces(ws)) == ws
    decreases |ws|
  {
    if |ws| == 1 {
      SplitWord(ws[0]);
    } else {
      var w := ws[0];
      var rest := JoinWithSpaces(ws[1..]);
      var t := w + " " + rest;
      SplitJoinRoundTrip(ws[1..]);
      WordsAtRun(t, 0, |w|);
      assert t[0..] == t && t[0..|w|] == w;
      WordsSkipWhitespace(t, |w|, |w| + 1);
      assert t[|w| + 1..] == rest;
      assert ws[1..][0] != [];
      assert Words(rest) == ws[1..];
      assert [w] + ws[1..] == ws;
    }
  }
}
