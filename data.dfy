/**
 * The training/development corpus as integer sequences (rwthlm/data.cc and
 * the `Data` class of rwthlm/data.h): reading tokenised lines, packing them
 * into sequences, prefixing every sequence with the word before it, and
 * sorting each batch window by length.
 */
module Data {
  import opened Common
  import opened Text
  import opened Sorting
  import opened Vocab

  /** 2^64: `size_t` arithmetic wraps modulo this value. */
  const SizeModulus: int := 0x1_0000_0000_0000_0000

  // ---------------------------------------------------------------------
  // Reading indices (data.cc:54-80)
  // ---------------------------------------------------------------------

  /** The words `iss >> word` yields for a trimmed line: its tokens, or, for a
    * line without tokens, the one stale value left in `word` by the
    * previous line (the failed extraction leaves the string untouched). */
  function WordsRead(tokens: seq<string>, stale: string): (r: seq<string>)
    ensures |r| >= 1
  {
    if tokens == [] then [stale] else tokens
  }

  /** The value of `word` after the line has been read. */
  function WordAfter(tokens: seq<string>, stale: string): string
  {
    Last(WordsRead(tokens, stale))
  }

  /** The value of `word` before line `i` is read ("" before the first line). */
  function StaleBefore(lines: seq<string>, i: nat): string
    requires i <= |lines|
  {
    if i == 0 then "" else WordAfter(Split(lines[i - 1]), StaleBefore(lines, i - 1))
  }

  /** Each word mapped through the vocabulary. */
  function Indices(v: Vocabulary, words: seq<string>): (r: seq<int>)
    ensures |r| == |words|
    ensures forall k :: 0 <= k < |words| ==> r[k] == v.GetIndex(words[k])
  {
    if words == [] then [] else Indices(v, words[..|words| - 1]) + [v.GetIndex(Last(words)) as int]
  }

  /** The indices pushed for one line. */
  function LineIndices(v: Vocabulary, debugNoSb: bool, tokens: seq<string>, stale: string): seq<int>
  {
    Indices(v, WordsRead(tokens, stale)) + (if debugNoSb then [] else [v.sbIndex as int])
  }

  /** The three assertions made per line: the trimmed line neither starts with
    * "<s>" nor ends with "</s>" (for a trimmed line these are properties of its
    * first and last token), and the last word read is not the boundary word. */
  predicate LineAccepted(v: Vocabulary, tokens: seq<string>, stale: string)
  {
    && !(tokens != [] && StartsWith(tokens[0], "<s>"))
    && !(tokens != [] && EndsWith(Last(tokens), "</s>"))
    && !v.IsSentenceBoundary(WordAfter(tokens, stale))
  }

  /** A line with tokens yields one index per token, then the boundary index. */
  lemma LineIndicesOfTokens(v: Vocabulary, debugNoSb: bool, tokens: seq<string>, stale: string)
    requires tokens != []
    ensures |LineIndices(v, debugNoSb, tokens, stale)| == |tokens| + (if debugNoSb then 0 else 1)
    ensures forall k :: 0 <= k < |tokens| ==> LineIndices(v, debugNoSb, tokens, stale)[k] == v.GetIndex(tokens[k])
    ensures !debugNoSb ==> Last(LineIndices(v, debugNoSb, tokens, stale)) == v.sbIndex
  {
  }

  /** One line of the reading loop: `word` is the value left by the previous line. */
  method ReadLine(v: Vocabulary, debugNoSb: bool, tokens: seq<string>, word: string)
    returns (ok: bool, indices: seq<int>, wordAfter: string)
    ensures ok == LineAccepted(v, tokens, word)
    ensures wordAfter == WordAfter(tokens, word)
    ensures ok ==> indices == LineIndices(v, debugNoSb, tokens, word)
  {
    wordAfter := word;
    indices := [];
    if tokens != [] && StartsWith(tokens[0], "<s>") {
      return false, [], WordAfter(tokens, word);
    }
    if tokens != [] && EndsWith(Last(tokens), "</s>") {
      return false, [], WordAfter(tokens, word);
    }
    if tokens == [] {
      indices := [v.GetIndex(wordAfter) as int];
    } else {
      var k := 0;
      while k < |tokens|
        invariant 0 <= k <= |tokens|
        invariant indices == Indices(v, tokens[..k])
        invariant k > 0 ==> wordAfter == tokens[k - 1]
      {
        wordAfter := tokens[k];
        indices := indices + [v.GetIndex(wordAfter) as int];
        assert tokens[..k + 1][..k] == tokens[..k];
        k := k + 1;
      }
      assert tokens[..k] == tokens;
    }
    if v.IsSentenceBoundary(wordAfter) {
      return false, [], wordAfter;
    }
    if !debugNoSb {
      indices := indices + [v.sbIndex as int];
    }
    ok := true;
  }

  /** Lines 0..n-1 all pass the per-line assertions. */
  predicate LinesAccepted(v: Vocabulary, lines: seq<string>, n: nat)
    requires n <= |lines|
  {
    forall i :: 0 <= i < n ==> LineAccepted(v, Split(lines[i]), StaleBefore(lines, i))
  }

  /** What line i yields, given the lines before it. */
  function LineOutput(v: Vocabulary, debugNoSb: bool, lines: seq<string>, i: nat): seq<int>
    requires i < |lines|
  {
    LineIndices(v, debugNoSb, Split(lines[i]), StaleBefore(lines, i))
  }

  /** `seqs` holds what lines 0..|seqs|-1 yield. */
  predicate LinesRead(v: Vocabulary, debugNoSb: bool, lines: seq<string>, seqs: seq<seq<int>>)
    requires |seqs| <= |lines|
  {
    forall i :: 0 <= i < |seqs| ==> seqs[i] == LineOutput(v, debugNoSb, lines, i)
  }

  /** Accepting line n extends the accepted prefix by one line. */
  lemma AcceptedStep(v: Vocabulary, lines: seq<string>, n: nat)
    requires n < |lines|
    requires LinesAccepted(v, lines, n)
    requires LineAccepted(v, Split(lines[n]), StaleBefore(lines, n))
    ensures LinesAccepted(v, lines, n + 1)
  {
  }

  /** Reading line |seqs| extends the read prefix by one line. */
  lemma ReadStep(v: Vocabulary, debugNoSb: bool, lines: seq<string>, seqs: seq<seq<int>>, indices: seq<int>)
    requires |seqs| < |lines|
    requires LinesRead(v, debugNoSb, lines, seqs)
    requires indices == LineOutput(v, debugNoSb, lines, |seqs|)
    ensures LinesRead(v, debugNoSb, lines, seqs + [indices])
  {
    var t := seqs + [indices];
    forall i | 0 <= i < |t|
      ensures t[i] == LineOutput(v, debugNoSb, lines, i)
    {
      if i < |seqs| {
        assert t[i] == seqs[i];
      }
    }
  }

  /**
   * Reads every line into a sequence of indices. The result is Fatal exactly
   * when some line fails one of the per-line assertions; otherwise line i
   * yields `LineIndices` of its tokens and the count returned is the total
   * number of indices pushed.
   */
  method ReadIndices(v: Vocabulary, debugNoSb: bool, lines: seq<string>)
    returns (r: Outcome<seq<seq<int>>>, count: nat)
    ensures r.Done? <==> LinesAccepted(v, lines, |lines|)
    ensures r.Done? ==> |r.value| == |lines| && LinesRead(v, debugNoSb, lines, r.value)
    ensures r.Done? ==> count == TotalLength(r.value)
  {
    var seqs: seq<seq<int>> := [];
    var word := "";
    count := 0;
    var i := 0;
    while i < |lines|
      invariant 0 <= i <= |lines|
      invariant word == StaleBefore(lines, i)
      invariant |seqs| == i
      invariant LinesAccepted(v, lines, i)
      invariant LinesRead(v, debugNoSb, lines, seqs)
      invariant count == TotalLength(seqs)
    {
      var ok, indices, next := ReadLine(v, debugNoSb, Split(lines[i]), word);
      if !ok {
        return Fatal("line rejected"), 0;
      }
      AcceptedStep(v, lines, i);
      ReadStep(v, debugNoSb, lines, seqs, indices);
      TotalLengthSnoc(seqs, indices);
      count := count + |indices|;
      seqs := seqs + [indices];
      word := next;
      i := i + 1;
    }
    r := Done(seqs);
  }

  // ---------------------------------------------------------------------
  // Appending a line (data.cc:146-174)
  // ---------------------------------------------------------------------

  /** `max_length - last->size()` in `size_t`: wraps when the last sequence is longer. */
  function Gap(last: seq<int>, maxLength: nat): int
  {
    if |last| <= maxLength then maxLength - |last| else SizeModulus + maxLength - |last|
  }

  /** `std::min(max_length - last->size(), current->size())`. */
  function Room(last: seq<int>, current: seq<int>, maxLength: nat): (r: nat)
    ensures r <= |current|
  {
    if Gap(last, maxLength) < |current| then if Gap(last, maxLength) < 0 then 0 else Gap(last, maxLength) else |current|
  }

  /** The sequences the splitting loop leaves behind, starting from `last`:
    * `last` is filled up first, then fresh sequences are opened while
    * anything of `current` remains. */
  function SplitInto(last: seq<int>, current: seq<int>, maxLength: nat): (r: seq<seq<int>>)
    requires maxLength >= 1
    ensures |r| >= 1
    decreases |current|, |last|
  {
    var size := Room(last, current, maxLength);
    if |current| - size == 0 then [last + current]
    else
      assert size == 0 ==> |last| >= 1;
      [last + current[..size]] + SplitInto([], current[size..], maxLength)
  }

  /** The whole of `data_` after `Append`. */
  function AppendSpec(data: seq<seq<int>>, maxLength: nat, concatenate: bool, current: seq<int>): (r: seq<seq<int>>)
    requires concatenate ==> maxLength >= 1
  {
    if !concatenate then data + [current]
    else
      var d := if data == [] then [[]] else data;
      var last := Last(d);
      var init := d[..|d| - 1];
      if |last| + |current| <= maxLength then init + [last + current]
      else if |current| <= maxLength then d + [current]
      else init + SplitInto(last, current, maxLength)
  }

  /** Every sequence has at most `maxLength` tokens. */
  predicate Bounded(data: seq<seq<int>>, maxLength: int)
  {
    forall k :: 0 <= k < |data| ==> |data[k]| <= maxLength
  }

  lemma {:induction false} SplitIntoConserves(last: seq<int>, current: seq<int>, maxLength: nat)
    requires maxLength >= 1
    ensures Flatten(SplitInto(last, current, maxLength)) == last + current
    decreases |current|, |last|
  {
    var size := Room(last, current, maxLength);
    if |current| - size == 0 {
      FlattenSingle(last + current);
    } else {
      var rest := current[size..];
      SplitIntoConserves([], rest, maxLength);
      FlattenAppend([last + current[..size]], SplitInto([], rest, maxLength));
      FlattenSingle(last + current[..size]);
      assert current == current[..size] + rest;
    }
  }

  /** Every piece the split produces fits, and all but the last are exactly full. */
  lemma {:induction false} SplitIntoBounded(last: seq<int>, current: seq<int>, maxLength: nat)
    requires maxLength >= 1
    requires |last| <= maxLength
    requires |last| + |current| > maxLength
    ensures Bounded(SplitInto(last, current, maxLength), maxLength)
    ensures forall k :: 0 <= k < |SplitInto(last, current, maxLength)| - 1 ==>
      |SplitInto(last, current, maxLength)[k]| == maxLength
    decreases |current|, |last|
  {
    var size := Room(last, current, maxLength);
    assert size == maxLength - |last|;
    if |current| - size != 0 {
      var rest := current[size..];
      if |rest| > maxLength {
        SplitIntoBounded([], rest, maxLength);
      } else {
        assert Room([], rest, maxLength) == |rest|;
      }
    }
  }

  /** `Append` loses and reorders nothing. */
  lemma AppendConserves(data: seq<seq<int>>, maxLength: nat, concatenate: bool, current: seq<int>)
    requires concatenate ==> maxLength >= 1
    ensures Flatten(AppendSpec(data, maxLength, concatenate, current)) == Flatten(data) + current
  {
    FlattenSingle(current);
    if !concatenate {
      FlattenAppend(data, [current]);
    } else {
      var d := if data == [] then [[]] else data;
      assert Flatten(d) == Flatten(data) by {
        if data == [] { FlattenSingle<int>([]); }
      }
      var last := Last(d);
      var init := d[..|d| - 1];
      assert d == init + [last];
      FlattenAppend(init, [last]);
      FlattenSingle(last);
      if |last| + |current| <= maxLength {
        FlattenAppend(init, [last + current]);
        FlattenSingle(last + current);
      } else if |current| <= maxLength {
        FlattenAppend(d, [current]);
      } else {
        FlattenAppend(init, SplitInto(last, current, maxLength));
        SplitIntoConserves(last, current, maxLength);
      }
    }
  }

  /** In concatenated mode `Append` keeps every sequence within `maxLength`. */
  lemma AppendBounded(data: seq<seq<int>>, maxLength: nat, current: seq<int>)
    requires maxLength >= 1
    requires Bounded(data, maxLength)
    ensures Bounded(AppendSpec(data, maxLength, true, current), maxLength)
  {
    var d := if data == [] then [[]] else data;
    var last := Last(d);
    if |last| + |current| > maxLength && |current| > maxLength {
      SplitIntoBounded(last, current, maxLength);
    }
  }

  /** Appending every line in turn. */
  function AppendAll(data: seq<seq<int>>, maxLength: nat, concatenate: bool, lines: seq<seq<int>>): seq<seq<int>>
    requires concatenate ==> maxLength >= 1
    decreases |lines|
  {
    if lines == [] then data
    else AppendAll(AppendSpec(data, maxLength, concatenate, lines[0]), maxLength, concatenate, lines[1..])
  }

  lemma {:induction false} AppendAllConserves(data: seq<seq<int>>, maxLength: nat, concatenate: bool, lines: seq<seq<int>>)
    requires concatenate ==> maxLength >= 1
    ensures Flatten(AppendAll(data, maxLength, concatenate, lines)) == Flatten(data) + Flatten(lines)
    decreases |lines|
  {
    if lines != [] {
      AppendConserves(data, maxLength, concatenate, lines[0]);
      AppendAllConserves(AppendSpec(data, maxLength, concatenate, lines[0]), maxLength, concatenate, lines[1..]);
    }
  }

  lemma {:induction false} AppendAllBounded(data: seq<seq<int>>, maxLength: nat, lines: seq<seq<int>>)
    requires maxLength >= 1
    requires Bounded(data, maxLength)
    ensures Bounded(AppendAll(data, maxLength, true, lines), maxLength)
    decreases |lines|
  {
    if lines != [] {
      AppendBounded(data, maxLength, lines[0]);
      AppendAllBounded(AppendSpec(data, maxLength, true, lines[0]), maxLength, lines[1..]);
    }
  }

  /** In verbatim mode the lines become the sequences unchanged. */
  lemma {:induction false} AppendAllVerbatim(data: seq<seq<int>>, lines: seq<seq<int>>)
    ensures AppendAll(data, 0, false, lines) == data + lines
    decreases |lines|
  {
    if lines != [] {
      AppendAllVerbatim(data + [lines[0]], lines[1..]);
      assert data + [lines[0]] + lines[1..] == data + lines;
    }
  }

  // ---------------------------------------------------------------------
  // Prefixing each sequence with the word before it (data.cc:90-96)
  // ---------------------------------------------------------------------

  /** The sequential prefixing loop, starting with `carry` before `d[0]`: each
    * sequence gets the last element of the already prefixed sequence before it. */
  function PrefixedFrom(d: seq<seq<int>>, carry: int): (r: seq<seq<int>>)
    ensures |r| == |d|
    decreases |d|
  {
    if d == [] then []
    else
      var s0 := [carry] + d[0];
      [s0] + PrefixedFrom(d[1..], Last(s0))
  }

  /** With non-empty sequences, sequence 0 gets the boundary index and sequence
    * i the last token of sequence i-1, in the order before sorting. */
  lemma {:induction false} PrefixedFromPredecessor(d: seq<seq<int>>, carry: int, i: nat)
    requires i < |d|
    requires forall k :: 0 <= k < |d| ==> d[k] != []
    ensures PrefixedFrom(d, carry)[i] == [if i == 0 then carry else Last(d[i - 1])] + d[i]
    decreases i
  {
    if i > 0 {
      PrefixedFromPredecessor(d[1..], Last([carry] + d[0]), i - 1);
      if i == 1 {
        assert Last([carry] + d[0]) == Last(d[0]);
      }
    }
  }

  lemma {:induction false} PrefixedFromBounded(d: seq<seq<int>>, carry: int, maxLength: int)
    requires Bounded(d, maxLength)
    ensures Bounded(PrefixedFrom(d, carry), maxLength + 1)
    decreases |d|
  {
    if d != [] {
      PrefixedFromBounded(d[1..], Last([carry] + d[0]), maxLength);
    }
  }

  lemma PrefixedFromStep(d: seq<seq<int>>, carry: int)
    requires d != []
    ensures PrefixedFrom(d, carry) == [[carry] + d[0]] + PrefixedFrom(d[1..], Last([carry] + d[0]))
  {
  }

  // ---------------------------------------------------------------------
  // Batch windows (data.cc:176-185)
  // ---------------------------------------------------------------------

  /** The window of at most `b` sequences starting at `w`. */
  function Window(s: seq<seq<int>>, w: nat, b: nat): seq<seq<int>>
    requires w <= |s|
  {
    s[w..Min(w + b, |s|)]
  }

  /** Longer sequences first. */
  predicate LongerOrEqual(s: seq<int>, t: seq<int>)
  {
    |s| >= |t|
  }

  lemma LongerOrEqualIsTotalPreorder()
    ensures TotalPreorder(LongerOrEqual)
  {
  }

  predicate NonIncreasingLengths(s: seq<seq<int>>)
  {
    forall i, j :: 0 <= i < j < |s| ==> |s[i]| >= |s[j]|
  }

  /** `std::sort` of one window with the "longer first" comparator. */
  function SortByLength(w: seq<seq<int>>): (r: seq<seq<int>>)
    ensures SortedPermutation(w, r) && |r| == |w|
  {
    LongerOrEqualIsTotalPreorder();
    var r := Sort(w, LongerOrEqual);
    assert NonIncreasingLengths(r) by {
      forall i, j | 0 <= i < j < |r| ensures |r[i]| >= |r[j]| {
        assert LongerOrEqual(r[i], r[j]);
      }
    }
    r
  }

  /** `after` is a permutation of `before` in non-increasing length. */
  ghost predicate SortedPermutation(before: seq<seq<int>>, after: seq<seq<int>>)
  {
    multiset(after) == multiset(before) && NonIncreasingLengths(after)
  }

  /** `after` is `before` with each window of `b` consecutive sequences (the
    * last one possibly shorter) permuted into non-increasing length; the
    * window boundaries stay where they were. */
  ghost predicate SortedWindows(before: seq<seq<int>>, after: seq<seq<int>>, b: nat)
    decreases |before|
  {
    && b >= 1
    && |after| == |before|
    && if |before| <= b then SortedPermutation(before, after)
       else SortedPermutation(before[..b], after[..b]) && SortedWindows(before[b..], after[b..], b)
  }

  /** Appending one more sorted window after k full windows. */
  lemma {:induction false} SortedWindowsSnoc(p: seq<seq<int>>, q: seq<seq<int>>, w: seq<seq<int>>, x: seq<seq<int>>, b: nat, k: nat)
    requires |p| == k * b
    requires SortedWindows(p, q, b)
    requires SortedPermutation(w, x) && |x| == |w| && 1 <= |w| <= b
    ensures SortedWindows(p + w, q + x, b)
    decreases k
  {
    if k == 0 {
      assert p + w == w && q + x == x;
    } else {
      assert |p| >= b;
      assert |p[b..]| == (k - 1) * b;
      assert (p + w)[..b] == p[..b] && (q + x)[..b] == q[..b];
      assert (p + w)[b..] == p[b..] + w && (q + x)[b..] == q[b..] + x;
      if |p| == b {
        assert p[b..] == [] && q[b..] == [];
      }
      SortedWindowsSnoc(p[b..], q[b..], w, x, b, k - 1);
    }
  }

  /** One iteration of the window-sorting loop: sorting window [begin, end) of
    * `prev` extends the sorted prefix to `end`. */
  lemma SortStep(d0: seq<seq<int>>, prev: seq<seq<int>>, sorted: seq<seq<int>>, b: nat, k: nat, begin: nat, end: nat)
    requires |prev| == |d0| && b >= 1
    requires begin == k * b && begin < end <= |d0| && end - begin <= b
    requires end - begin < b ==> end == |d0|
    requires prev[begin..] == d0[begin..]
    requires SortedWindows(d0[..begin], prev[..begin], b)
    requires SortedPermutation(prev[begin..end], sorted) && |sorted| == end - begin
    ensures |prev[..begin] + sorted + prev[end..]| == |d0|
    ensures (prev[..begin] + sorted + prev[end..])[end..] == d0[end..]
    ensures SortedWindows(d0[..end], (prev[..begin] + sorted + prev[end..])[..end], b)
    ensures end == (k + 1) * b || end == |d0|
  {
    var data := prev[..begin] + sorted + prev[end..];
    assert data[..end] == prev[..begin] + sorted;
    assert data[end..] == prev[end..];
    assert prev[end..] == prev[begin..][end - begin..];
    assert d0[begin..end] == d0[begin..][..end - begin] == prev[begin..][..end - begin] == prev[begin..end];
    assert d0[..end] == d0[..begin] + d0[begin..end];
    SortedWindowsSnoc(d0[..begin], prev[..begin], d0[begin..end], sorted, b, k);
    assert (k + 1) * b == k * b + b;
  }

  /** A window-wise permutation permutes the whole sequence. */
  lemma {:induction false} SortedWindowsIsPermutation(before: seq<seq<int>>, after: seq<seq<int>>, b: nat)
    requires SortedWindows(before, after, b)
    ensures multiset(after) == multiset(before)
    decreases |before|
  {
    if |before| > b {
      SortedWindowsIsPermutation(before[b..], after[b..], b);
      assert before == before[..b] + before[b..];
      assert after == after[..b] + after[b..];
    }
  }

  /** `w` is a multiple of `b`: where a batch window starts. */
  predicate WindowStart(w: nat, b: nat)
    decreases w
  {
    w == 0 || (b >= 1 && w >= b && WindowStart(w - b, b))
  }

  /** The window of `after` starting at any multiple w of b is a sorted
    * permutation of the window of `before` starting there. */
  lemma {:induction false} SortedWindowsAt(before: seq<seq<int>>, after: seq<seq<int>>, b: nat, w: nat)
    requires SortedWindows(before, after, b)
    requires WindowStart(w, b) && w < |before|
    ensures SortedPermutation(Window(before, w, b), Window(after, w, b))
    decreases w
  {
    if w == 0 {
      if |before| <= b {
        assert Window(before, w, b) == before && Window(after, w, b) == after;
      } else {
        assert Window(before, w, b) == before[..b] && Window(after, w, b) == after[..b];
      }
    } else {
      var e := Min(w + b, |before|);
      SortedWindowsAt(before[b..], after[b..], b, w - b);
      assert Window(before[b..], w - b, b) == before[w..e];
      assert Window(after[b..], w - b, b) == after[w..e];
    }
  }

  /** Lexicographic order on sequences (`std::vector`'s `operator<`), as "not greater". */
  predicate LexLessOrEqual(s: seq<int>, t: seq<int>)
    decreases |s|
  {
    if s == [] then true
    else if t == [] then false
    else if s[0] != t[0] then s[0] < t[0]
    else LexLessOrEqual(s[1..], t[1..])
  }

  lemma {:induction false} LexTotal(s: seq<int>, t: seq<int>)
    ensures LexLessOrEqual(s, t) || LexLessOrEqual(t, s)
    decreases |s|
  {
    if s != [] && t != [] && s[0] == t[0] {
      LexTotal(s[1..], t[1..]);
    }
  }

  lemma {:induction false} LexTransitive(s: seq<int>, t: seq<int>, u: seq<int>)
    requires LexLessOrEqual(s, t) && LexLessOrEqual(t, u)
    ensures LexLessOrEqual(s, u)
    decreases |s|
  {
    if s != [] && t != [] && u != [] && s[0] == t[0] && t[0] == u[0] {
      LexTransitive(s[1..], t[1..], u[1..]);
    }
  }

  lemma LexIsTotalPreorder()
    ensures TotalPreorder(LexLessOrEqual)
  {
    forall s, t ensures LexLessOrEqual(s, t) || LexLessOrEqual(t, s) {
      LexTotal(s, t);
    }
    forall s, t, u | LexLessOrEqual(s, t) && LexLessOrEqual(t, u) ensures LexLessOrEqual(s, u) {
      LexTransitive(s, t, u);
    }
  }

  /** The draws `std::random_shuffle` asks its generator for: for position
    * i = 1..n-1 one index in [0, i]. */
  predicate ShuffleDraws(draws: seq<nat>, n: nat)
  {
    && |draws| == (if n == 0 then 0 else n - 1)
    && forall k :: 0 <= k < |draws| ==> draws[k] <= k + 1
  }

  /** Swapping two elements keeps the multiset. */
  lemma SwapKeepsMultiset<T>(s: seq<T>, i: nat, j: nat)
    requires i < |s| && j < |s|
    ensures multiset(s[i := s[j]][j := s[i]]) == multiset(s)
  {
    var t := s[i := s[j]];
    assert multiset(t) == multiset(s) - multiset{s[i]} + multiset{s[j]};
    assert multiset(t[j := s[i]]) == multiset(t) - multiset{t[j]} + multiset{s[i]};
  }

  /** Two sequences each lexicographically no greater than the other are equal. */
  lemma {:induction false} LexAntisymmetric(s: seq<int>, t: seq<int>)
    requires LexLessOrEqual(s, t) && LexLessOrEqual(t, s)
    ensures s == t
    decreases |s|
  {
    if s != [] {
      LexAntisymmetric(s[1..], t[1..]);
      assert s == [s[0]] + s[1..] && t == [t[0]] + t[1..];
    }
  }

  /** `std::sort` on the whole data (data.h:186): the lexicographically
    * sorted permutation. */
  function LexSort(data: seq<seq<int>>): (r: seq<seq<int>>)
    ensures SortedBy(r, LexLessOrEqual) && multiset(r) == multiset(data)
  {
    LexIsTotalPreorder();
    Sort(data, LexLessOrEqual)
  }

  /** The lexicographic sort depends on the sequences only, not on their order. */
  lemma LexSortIgnoresOrder(a: seq<seq<int>>, b: seq<seq<int>>)
    requires multiset(a) == multiset(b)
    ensures LexSort(a) == LexSort(b)
  {
    forall s: seq<int>, t: seq<int> | LexLessOrEqual(s, t) && LexLessOrEqual(t, s)
      ensures s == t
    {
      LexAntisymmetric(s, t);
    }
    SortedUnique(LexSort(a), LexSort(b), LexLessOrEqual);
  }

  /** `std::random_shuffle` from position i on (data.h:187): position i is
    * swapped with position draws[i - 1], then the later positions follow. */
  function RandomShuffled(s: seq<seq<int>>, draws: seq<nat>, i: nat): (r: seq<seq<int>>)
    requires 1 <= i && ShuffleDraws(draws, |s|)
    ensures multiset(r) == multiset(s) && |r| == |s|
    decreases |s| - i
  {
    if i >= |s| then s
    else
      var j := draws[i - 1];
      SwapKeepsMultiset(s, i, j);
      RandomShuffled(s[i := s[j]][j := s[i]], draws, i + 1)
  }

  /** `std::random_shuffle`'s loop: for i = 1..n-1, swap position i with
    * position draws[i - 1]. */
  method RandomShuffle(s: seq<seq<int>>, draws: seq<nat>) returns (r: seq<seq<int>>)
    requires ShuffleDraws(draws, |s|)
    ensures r == RandomShuffled(s, draws, 1)
  {
    r := s;
    var i := 1;
    while i < |r|
      invariant 1 <= i && |r| == |s|
      invariant RandomShuffled(r, draws, i) == RandomShuffled(s, draws, 1)
      decreases |r| - i
    {
      var j := draws[i - 1];
      r := r[i := r[j]][j := r[i]];
      i := i + 1;
    }
  }

  /** The order `Shuffle` leaves before re-sorting the windows: the sorted
    * data, shuffled with the draws. */
  function ShuffledOrder(data: seq<seq<int>>, draws: seq<nat>): (r: seq<seq<int>>)
    requires ShuffleDraws(draws, |data|)
    ensures multiset(r) == multiset(data)
  {
    RandomShuffled(LexSort(data), draws, 1)
  }

  /** data.h:185: a shuffle does not depend on earlier shuffles. The same
    * sequences in any order, shuffled with the same draws, come out alike. */
  lemma ShuffleIgnoresEarlierOrder(a: seq<seq<int>>, b: seq<seq<int>>, draws: seq<nat>)
    requires multiset(a) == multiset(b) && ShuffleDraws(draws, |a|)
    ensures |b| == |a| && ShuffledOrder(a, draws) == ShuffledOrder(b, draws)
  {
    assert |a| == |multiset(a)| == |b|;
    LexSortIgnoresOrder(a, b);
  }

  /** Σ (|s| - 1): the words to be predicted, the first token of each sequence being context only. */
  function RunningWords(data: seq<seq<int>>): int
  {
    if data == [] then 0 else |data[0]| - 1 + RunningWords(data[1..])
  }

  lemma {:induction false} RunningWordsIsTotalMinusCount(data: seq<seq<int>>)
    ensures RunningWords(data) == TotalLength(data) - |data|
  {
    if data != [] {
      RunningWordsIsTotalMinusCount(data[1..]);
    }
  }

  // ---------------------------------------------------------------------
  // Fixed-length streams (data.cc:103-144)
  // ---------------------------------------------------------------------

  // `total` words are shared out over `streams` streams as `share`, the quotient
  // total / streams, and `spare`, the remainder total % streams: stream b receives share
  // words plus one more when b < spare. The layout below is stated over share and spare;
  // `QuotasSumToTotal` ties them back to `total`.

  /** The words every stream receives at least: the quotient total / streams. */
  function Share(total: nat, streams: nat): nat
    requires streams >= 1
  {
    total / streams
  }

  /** How many streams, the first ones, receive one word more: the remainder total % streams. */
  function Spare(total: nat, streams: nat): nat
    requires streams >= 1
  {
    total % streams
  }

  /** The words stream b receives: the quotient, plus one for each of the first `spare` streams. */
  function Quota(share: nat, spare: nat, b: nat): nat
  {
    share + (if b < spare then 1 else 0)
  }

  /** Σ Quota(c) for c = b .. streams-1. */
  function QuotasFrom(share: nat, spare: nat, streams: nat, b: nat): nat
    decreases streams - b
  {
    if b >= streams then 0 else Quota(share, spare, b) + QuotasFrom(share, spare, streams, b + 1)
  }

  lemma {:induction false} QuotasFromClosed(share: nat, spare: nat, streams: nat, b: nat)
    requires spare <= streams && b <= streams
    ensures QuotasFrom(share, spare, streams, b) == (streams - b) * share + (if b < spare then spare - b else 0)
    decreases streams - b
  {
    if b < streams {
      QuotasFromClosed(share, spare, streams, b + 1);
      MulSucc(streams - b - 1, share);
    }
  }

  /** The quotas of all streams add up to the words to be placed. */
  lemma QuotasSumToTotal(total: nat, streams: nat)
    requires streams >= 1
    ensures QuotasFrom(Share(total, streams), Spare(total, streams), streams, 0) == total
  {
    DivModParts(total, streams);
    QuotasFromClosed(Share(total, streams), Spare(total, streams), streams, 0);
  }

  /** Stream 0 gets the largest quota. */
  lemma QuotaFirstIsLargest(share: nat, spare: nat, b: nat)
    ensures Quota(share, spare, b) <= Quota(share, spare, 0)
  {
  }

  /** Σ Quota(c) for c < b: where stream b's words begin among all the words. */
  function QuotasBefore(share: nat, spare: nat, b: nat): nat
  {
    if b == 0 then 0 else QuotasBefore(share, spare, b - 1) + Quota(share, spare, b - 1)
  }

  /** The streams before b and the streams from b on share out all the words. */
  lemma {:induction false} QuotasBeforeAndFrom(share: nat, spare: nat, streams: nat, b: nat)
    requires b <= streams
    ensures QuotasBefore(share, spare, b) + QuotasFrom(share, spare, streams, b) == QuotasFrom(share, spare, streams, 0)
  {
    if b > 0 {
      QuotasBeforeAndFrom(share, spare, streams, b - 1);
    }
  }

  /** A stream without a quota is followed by streams without one. */
  lemma {:induction false} QuotasFromEmpty(share: nat, spare: nat, streams: nat, b: nat)
    requires Quota(share, spare, b) == 0
    ensures QuotasFrom(share, spare, streams, b) == 0
    decreases streams - b
  {
    if b < streams {
      QuotasFromEmpty(share, spare, streams, b + 1);
    }
  }

  /** While words remain for streams b, b+1, …, stream b has a word itself. */
  lemma QuotaWhileWordsRemain(share: nat, spare: nat, streams: nat, b: nat)
    requires QuotasFrom(share, spare, streams, b) > 0
    ensures Quota(share, spare, b) > 0
  {
    if Quota(share, spare, b) == 0 {
      QuotasFromEmpty(share, spare, streams, b);
    }
  }

  /** Once no words remain for streams b, b+1, …, none of them has a quota. */
  lemma QuotasExhausted(share: nat, spare: nat, streams: nat, b: nat, c: nat)
    requires b <= c < streams && QuotasFrom(share, spare, streams, b) == 0
    ensures Quota(share, spare, c) == 0
  {
    assert Quota(share, spare, c) <= Quota(share, spare, b);
  }

  // Row k of stream b is sequence Times(k, streams) + b, and word g of a stream falls in
  // its row RowIndex(g, width). Both are written by repetition rather than with `*` and
  // `/`, which keeps the layout's arithmetic linear for the solver; `TimesIsProduct` and
  // `RowIndexIsQuotient` say they are the product and the quotient.

  /** k * m, as repeated addition. */
  function Times(k: nat, m: nat): nat
  {
    if k == 0 then 0 else Times(k - 1, m) + m
  }

  /** g / width, as repeated subtraction. */
  function RowIndex(g: nat, width: nat): nat
    requires width >= 1
    decreases g
  {
    if g < width then 0 else 1 + RowIndex(g - width, width)
  }

  lemma {:induction false} TimesIsProduct(k: nat, m: nat)
    ensures Times(k, m) == k * m
  {
    if k > 0 {
      TimesIsProduct(k - 1, m);
      MulSucc(k - 1, m);
    }
  }

  lemma {:induction false} TimesMonotone(a: nat, b: nat, m: nat)
    requires a <= b
    ensures Times(a, m) <= Times(b, m)
    decreases b
  {
    if a < b {
      TimesMonotone(a, b - 1, m);
    }
  }

  lemma {:induction false} TimesAtLeast(k: nat, m: nat)
    requires m >= 1
    ensures Times(k, m) >= k
  {
    if k > 0 {
      TimesAtLeast(k - 1, m);
    }
  }

  /** Word g falls in row RowIndex(g, width), which spans words Times(k, width) up to Times(k, width) + width. */
  lemma {:induction false} RowIndexBounds(g: nat, width: nat)
    requires width >= 1
    ensures Times(RowIndex(g, width), width) <= g < Times(RowIndex(g, width), width) + width
    decreases g
  {
    if g >= width {
      RowIndexBounds(g - width, width);
    }
  }

  /** The row a word falls in is the only one spanning it. */
  lemma {:induction false} RowIndexUnique(g: nat, k: nat, width: nat)
    requires width >= 1 && Times(k, width) <= g < Times(k, width) + width
    ensures RowIndex(g, width) == k
    decreases k
  {
    if k > 0 {
      RowIndexUnique(g - width, k - 1, width);
    }
  }

  lemma {:induction false} RowIndexMonotone(a: nat, b: nat, width: nat)
    requires width >= 1 && a <= b
    ensures RowIndex(a, width) <= RowIndex(b, width)
    decreases a
  {
    if a >= width {
      RowIndexMonotone(a - width, b - width, width);
    }
  }

  lemma RowIndexIsQuotient(g: nat, width: nat)
    requires width >= 1
    ensures RowIndex(g, width) == g / width
  {
    RowIndexBounds(g, width);
    TimesIsProduct(RowIndex(g, width), width);
    MulSucc(RowIndex(g, width), width);
    DivIsUnique(g, width, RowIndex(g, width));
  }

  /** Every sequence index i is row k of some stream b. */
  lemma IndexSplit(i: nat, streams: nat)
    requires streams >= 1
    ensures var k := RowIndex(i, streams);
            Times(k, streams) <= i < Times(k, streams) + streams
  {
    RowIndexBounds(i, streams);
  }

  /** Sequence Times(k, streams) + b lies before the first Times(r, streams) exactly when k < r. */
  lemma IndexBelow(b: nat, k: nat, r: nat, streams: nat)
    requires b < streams
    ensures Times(k, streams) + b < Times(r, streams) <==> k < r
  {
    if k < r {
      TimesMonotone(k + 1, r, streams);
    } else {
      TimesMonotone(r, k, streams);
    }
  }

  /** Different rows or streams are different sequences. */
  lemma IndexDistinct(b: nat, k: nat, b': nat, k': nat, streams: nat)
    requires b < streams && b' < streams && (b != b' || k != k')
    ensures Times(k, streams) + b != Times(k', streams) + b'
  {
    if k < k' {
      IndexBelow(b, k, k', streams);
    } else if k' < k {
      IndexBelow(b', k', k, streams);
    }
  }

  /** A row past the one word h falls in starts past h. */
  lemma PastLastRow(k: nat, width: nat, h: nat)
    requires width >= 1 && k >= 1 + RowIndex(h, width)
    ensures Times(k, width) > h
  {
    RowIndexBounds(h, width);
    TimesMonotone(1 + RowIndex(h, width), k, width);
  }

  /** The words stream c holds while stream `batch` is being filled and holds `got`:
    * every earlier stream has its whole quota and every later one nothing yet. */
  function Held(share: nat, spare: nat, batch: nat, got: nat, c: nat): nat
  {
    if c < batch then Quota(share, spare, c) else if c == batch then got else 0
  }

  /** `Held` for every stream. */
  function Holdings(share: nat, spare: nat, streams: nat, batch: nat, got: nat): seq<nat>
  {
    seq(streams, c requires 0 <= c => Held(share, spare, batch, got, c))
  }

  /** Every stream's quota: what the streams hold once all words are placed. */
  function Quotas(share: nat, spare: nat, streams: nat): seq<nat>
  {
    seq(streams, c requires 0 <= c => Quota(share, spare, c))
  }

  /** Where each stream's words begin among all the words. */
  function Starts(share: nat, spare: nat, streams: nat): seq<nat>
  {
    seq(streams, c requires 0 <= c => QuotasBefore(share, spare, c))
  }

  /** The length of row k of a stream holding h words, opening word included: each row
    * takes up to `width` of the stream's words. */
  function RowLength(width: nat, h: nat, k: nat): nat
  {
    if Times(k, width) < h then 1 + Min(width, h - Times(k, width)) else 0
  }

  /** Row k of stream b, sequence Times(k, streams) + b, has its length for the words the
    * stream holds and, when not empty, is the stretch of `placed` (the boundary index
    * followed by the words) that starts at the word placed just before its first own word. */
  ghost predicate RowLaid(d: seq<seq<int>>, placed: seq<int>, streams: nat, width: nat,
                          starts: seq<nat>, held: seq<nat>, b: nat, k: nat)
    requires b < streams == |starts| == |held| && Times(k, streams) + b < |d|
  {
    var row, start := d[Times(k, streams) + b], starts[b] + Times(k, width);
    && |row| == RowLength(width, held[b], k)
    && (row != [] ==> start + |row| <= |placed| && row == placed[start..start + |row|])
  }

  /** Every row inside `d` is laid out for the words each stream holds. */
  ghost predicate RowsLaid(d: seq<seq<int>>, placed: seq<int>, streams: nat, width: nat, starts: seq<nat>, held: seq<nat>)
    requires streams == |starts| == |held|
  {
    forall b: nat, k: nat :: b < streams && Times(k, streams) + b < |d| ==>
      RowLaid(d, placed, streams, width, starts, held, b, k)
  }

  /** `d` is a prefix of the layout in which stream b holds held[b] words, the ones after
    * starts[b]: every row after `d` in the layout is empty and every row inside it is laid out. */
  ghost predicate Laid(d: seq<seq<int>>, placed: seq<int>, streams: nat, width: nat, starts: seq<nat>, held: seq<nat>)
    requires 1 <= streams == |starts| == |held| && width >= 1
  {
    var rows := 1 + RowIndex(held[0], width);
    && |d| <= Times(rows, streams)
    && (forall b: nat, k: nat {:trigger RowLength(width, held[b], k)} ::
          b < streams && k < rows && |d| <= Times(k, streams) + b ==> RowLength(width, held[b], k) == 0)
    && RowsLaid(d, placed, streams, width, starts, held)
  }

  /** No stream holds more words than stream 0. */
  ghost predicate FirstHoldsMost(held: seq<nat>)
  {
    forall c :: 0 <= c < |held| ==> held[c] <= held[0]
  }

  /** The layout once every stream holds its quota: stream b's words, cut into stretches of
    * maxLength - 1, fill sequences b, b + streams, b + 2 * streams, … in turn. */
  ghost predicate Dealt(d: seq<seq<int>>, placed: seq<int>, share: nat, spare: nat, streams: nat, maxLength: int)
    requires streams >= 1 && maxLength >= 2
  {
    Laid(d, placed, streams, maxLength - 1, Starts(share, spare, streams), Quotas(share, spare, streams))
  }

  /** While stream `batch` is being filled no stream holds more than stream 0. */
  lemma HoldingsFirstMost(share: nat, spare: nat, streams: nat, batch: nat, got: nat)
    requires streams >= 1 && batch < streams && got <= Quota(share, spare, batch)
    ensures FirstHoldsMost(Holdings(share, spare, streams, batch, got))
  {
    forall c | 0 <= c < streams
      ensures Held(share, spare, batch, got, c) <= Held(share, spare, batch, got, 0)
    {
      QuotaFirstIsLargest(share, spare, c);
      QuotaFirstIsLargest(share, spare, batch);
    }
  }

  /** No stream's quota exceeds stream 0's. */
  lemma QuotasFirstMost(share: nat, spare: nat, streams: nat)
    ensures FirstHoldsMost(Quotas(share, spare, streams))
  {
    forall c | 0 <= c < streams
      ensures Quota(share, spare, c) <= Quota(share, spare, 0)
    {
      QuotaFirstIsLargest(share, spare, c);
    }
  }

  /** Words placed into stream `batch` change its count alone. */
  lemma HoldingsGrow(share: nat, spare: nat, streams: nat, batch: nat, got: nat, m: nat)
    requires streams >= 1 && batch < streams
    ensures Holdings(share, spare, streams, batch, got)[batch := got + m] == Holdings(share, spare, streams, batch, got + m)
  {
  }

  /** Handing over from a stream with its quota to the next one, which holds nothing yet,
    * changes no stream's count. */
  lemma HoldingsHandOver(share: nat, spare: nat, streams: nat, batch: nat)
    requires streams >= 1 && batch + 1 < streams
    ensures Holdings(share, spare, streams, batch, Quota(share, spare, batch)) == Holdings(share, spare, streams, batch + 1, 0)
  {
  }

  /** Once no words remain for the streams after `batch`, every stream holds its quota. */
  lemma HoldingsComplete(share: nat, spare: nat, streams: nat, batch: nat)
    requires streams >= 1 && batch < streams && QuotasFrom(share, spare, streams, batch + 1) == 0
    ensures Holdings(share, spare, streams, batch, Quota(share, spare, batch)) == Quotas(share, spare, streams)
  {
    forall c | batch < c < streams
      ensures Quota(share, spare, c) == 0
    {
      QuotasExhausted(share, spare, streams, batch + 1, c);
    }
  }

  /** Rows past stream 0's last one are empty. */
  lemma PastRowsEmpty(width: nat, held: seq<nat>, b: nat, k: nat)
    requires width >= 1 && b < |held| && FirstHoldsMost(held) && k >= 1 + RowIndex(held[0], width)
    ensures RowLength(width, held[b], k) == 0
  {
    PastLastRow(k, width, held[0]);
  }

  /** A stream gaining words inside its row kj changes no other row's length. */
  lemma OtherRowsKeep(width: nat, h: nat, m: nat, k: nat, kj: nat)
    requires width >= 1 && Times(kj, width) <= h && h + m <= Times(kj, width) + width && k != kj
    ensures RowLength(width, h + m, k) == RowLength(width, h, k)
  {
    if k < kj {
      TimesMonotone(k + 1, kj, width);
    } else {
      TimesMonotone(kj + 1, k, width);
    }
  }

  /** A vector of exactly the rows stream 0 reaches, each laid out, is the layout. */
  lemma LaidFromRows(d: seq<seq<int>>, placed: seq<int>, streams: nat, width: nat, starts: seq<nat>, held: seq<nat>)
    requires 1 <= streams == |starts| == |held| && width >= 1
    requires |d| == Times(1 + RowIndex(held[0], width), streams) && RowsLaid(d, placed, streams, width, starts, held)
    ensures Laid(d, placed, streams, width, starts, held)
  {
    var rows := 1 + RowIndex(held[0], width);
    forall k: nat | k < rows
      ensures Times(k, streams) + streams <= |d|
    {
      TimesMonotone(k + 1, rows, streams);
    }
  }

  /** Dropping an empty last sequence keeps the layout. */
  lemma LaidDropEmpty(d: seq<seq<int>>, placed: seq<int>, streams: nat, width: nat, starts: seq<nat>, held: seq<nat>)
    requires 1 <= streams == |starts| == |held| && width >= 1
    requires Laid(d, placed, streams, width, starts, held) && d != [] && Last(d) == []
    ensures Laid(d[..|d| - 1], placed, streams, width, starts, held)
  {
    var d' := d[..|d| - 1];
    forall b: nat, k: nat | b < streams && Times(k, streams) + b < |d'|
      ensures RowLaid(d', placed, streams, width, starts, held, b, k)
    {
      assert RowLaid(d, placed, streams, width, starts, held, b, k);
    }
    forall b: nat, k: nat | b < streams && Times(k, streams) + b == |d'|
      ensures RowLength(width, held[b], k) == 0
    {
      assert RowLaid(d, placed, streams, width, starts, held, b, k);
    }
  }

  /** What holds at the head of the dealing loop (data.cc:115-140): `d` is the layout with every
    * stream before `batch` complete and stream `batch` holding its quota less n words, j is that
    * stream's row being filled, `placed` the boundary index and the words placed so far, and
    * `remaining` the words still to place. */
  ghost predicate Dealing(d: seq<seq<int>>, placed: seq<int>, j: nat, batch: nat, n: int,
                          lastWord: int, remaining: nat, share: nat, spare: nat, streams: nat, maxLength: int)
  {
    && streams >= 1 && maxLength >= 2 && batch < streams
    && 0 <= n <= Quota(share, spare, batch)
    && remaining == n + QuotasFrom(share, spare, streams, batch + 1)
    && (remaining > 0 ==> n > 0)
    && |placed| == 1 + QuotasBefore(share, spare, batch) + (Quota(share, spare, batch) - n)
    && lastWord == Last(placed)
    && j < |d|
    && Placing(d, placed, j, batch, Quota(share, spare, batch) - n, share, spare, streams, maxLength)
  }

  /** The layout with stream `batch` holding `got` words, and j the sequence its next word goes to. */
  ghost predicate Placing(d: seq<seq<int>>, placed: seq<int>, j: nat, batch: nat, got: nat,
                          share: nat, spare: nat, streams: nat, maxLength: int)
    requires streams >= 1 && maxLength >= 2
  {
    && j == Times(RowIndex(got, maxLength - 1), streams) + batch
    && |d| == Times(1 + RowIndex(Held(share, spare, batch, got, 0), maxLength - 1), streams)
    && RowsLaid(d, placed, streams, maxLength - 1, Starts(share, spare, streams), Holdings(share, spare, streams, batch, got))
  }

  /** Dealing, right after sequence j has received at least one word and before j moves on. */
  ghost predicate Filled(d: seq<seq<int>>, placed: seq<int>, j: nat, batch: nat, n: int,
                         lastWord: int, remaining: nat, share: nat, spare: nat, streams: nat, maxLength: int)
  {
    && streams >= 1 && maxLength >= 2 && batch < streams
    && 0 <= n < Quota(share, spare, batch)
    && remaining == n + QuotasFrom(share, spare, streams, batch + 1)
    && |placed| == 1 + QuotasBefore(share, spare, batch) + (Quota(share, spare, batch) - n)
    && lastWord == Last(placed)
    && j == Times(RowIndex(Quota(share, spare, batch) - n - 1, maxLength - 1), streams) + batch
    && j < |d|
    && |d[j]| <= maxLength
    && |d| == Times(1 + RowIndex(if batch == 0 then Quota(share, spare, 0) - n - 1 else Quota(share, spare, 0), maxLength - 1), streams)
    && RowsLaid(d, placed, streams, maxLength - 1, Starts(share, spare, streams), Holdings(share, spare, streams, batch, Quota(share, spare, batch) - n))
  }

  /** Before any word is placed: `streams` empty sequences, stream 0 about to take its quota. */
  lemma DealingStarts(share: nat, spare: nat, sb: int, streams: nat, maxLength: int)
    requires streams >= 1 && maxLength >= 2
    ensures Dealing(seq(streams, _ => []), [sb], 0, 0, Quota(share, spare, 0), sb, QuotasFrom(share, spare, streams, 0),
                    share, spare, streams, maxLength)
  {
    if QuotasFrom(share, spare, streams, 0) > 0 {
      QuotaWhileWordsRemain(share, spare, streams, 0);
    }
    var d: seq<seq<int>>, placed := seq(streams, _ => []), [sb];
    var w, starts, held := maxLength - 1, Starts(share, spare, streams), Holdings(share, spare, streams, 0, 0);
    assert Times(1, streams) == streams;
    forall b: nat, k: nat | b < streams && Times(k, streams) + b < |d|
      ensures RowLaid(d, placed, streams, w, starts, held, b, k)
    {
      if k > 0 {
        TimesMonotone(1, k, streams);
      }
    }
  }

  /** At the head of the dealing loop sequence j is never full. */
  lemma CurrentRowHasRoom(d: seq<seq<int>>, placed: seq<int>, j: nat, batch: nat, n: int,
                          lastWord: int, remaining: nat, share: nat, spare: nat, streams: nat, maxLength: int)
    requires Dealing(d, placed, j, batch, n, lastWord, remaining, share, spare, streams, maxLength)
    ensures |d[j]| < maxLength
  {
    var w, got := maxLength - 1, Quota(share, spare, batch) - n;
    RowIndexBounds(got, w);
    assert RowLaid(d, placed, streams, w, Starts(share, spare, streams), Holdings(share, spare, streams, batch, got), batch, RowIndex(got, w));
  }

  /** A stretch inside `placed` is unchanged by appending to `placed`. */
  lemma SliceOfPrefix(placed: seq<int>, words: seq<int>, a: nat, n: nat)
    requires a + n <= |placed|
    ensures (placed + words)[a..a + n] == placed[a..a + n]
  {
  }

  /** A row other than row kj of stream `batch` keeps its place while row kj takes more
    * words and `placed` grows by those words. */
  lemma LaidGrowOther(d: seq<seq<int>>, placed: seq<int>, streams: nat, width: nat, starts: seq<nat>, held: seq<nat>,
                      batch: nat, kj: nat, row: seq<int>, words: seq<int>,
                      d': seq<seq<int>>, placed': seq<int>, held': seq<nat>, b: nat, k: nat)
    requires 1 <= streams == |starts| == |held| && width >= 1 && batch < streams && b < streams
    requires b != batch || k != kj
    requires Times(kj, width) <= held[batch] && held[batch] + |words| <= Times(kj, width) + width
    requires Times(kj, streams) + batch < |d| && Times(k, streams) + b < |d|
    requires d' == d[Times(kj, streams) + batch := row] && placed' == placed + words
    requires held' == held[batch := held[batch] + |words|]
    requires RowLaid(d, placed, streams, width, starts, held, b, k)
    ensures RowLaid(d', placed', streams, width, starts, held', b, k)
  {
    var i := Times(k, streams) + b;
    IndexDistinct(b, k, batch, kj, streams);
    assert d'[i] == d[i];
    if b == batch {
      OtherRowsKeep(width, held[batch], |words|, k, kj);
    } else {
      assert held'[b] == held[b];
    }
    if d[i] != [] {
      SliceOfPrefix(placed, words, starts[b] + Times(k, width), |d[i]|);
    }
  }

  /** Row kj of stream `batch` taking the next words leaves every other row laid out. */
  lemma LaidGrowRows(d: seq<seq<int>>, placed: seq<int>, streams: nat, width: nat, starts: seq<nat>, held: seq<nat>,
                     batch: nat, kj: nat, row: seq<int>, words: seq<int>,
                     d': seq<seq<int>>, placed': seq<int>, held': seq<nat>)
    requires 1 <= streams == |starts| == |held| && width >= 1 && batch < streams
    requires RowsLaid(d, placed, streams, width, starts, held)
    requires Times(kj, width) <= held[batch] && held[batch] + |words| <= Times(kj, width) + width
    requires Times(kj, streams) + batch < |d|
    requires d' == d[Times(kj, streams) + batch := row] && placed' == placed + words
    requires held' == held[batch := held[batch] + |words|]
    ensures forall b: nat, k: nat :: b < streams && Times(k, streams) + b < |d'| && (b != batch || k != kj) ==>
              RowLaid(d', placed', streams, width, starts, held', b, k)
  {
    forall b: nat, k: nat | b < streams && Times(k, streams) + b < |d'| && (b != batch || k != kj)
      ensures RowLaid(d', placed', streams, width, starts, held', b, k)
    {
      assert RowLaid(d, placed, streams, width, starts, held, b, k);
      LaidGrowOther(d, placed, streams, width, starts, held, batch, kj, row, words, d', placed', held', b, k);
    }
  }

  /** Row kj of stream `batch` taking the next words, every other sequence staying as it is,
    * keeps every row laid out. */
  lemma LaidGrow(d: seq<seq<int>>, placed: seq<int>, streams: nat, width: nat, starts: seq<nat>, held: seq<nat>,
                 batch: nat, kj: nat, row: seq<int>, words: seq<int>)
    requires 1 <= streams == |starts| == |held| && width >= 1 && batch < streams
    requires RowsLaid(d, placed, streams, width, starts, held)
    requires Times(kj, width) <= held[batch] && held[batch] + |words| <= Times(kj, width) + width
    requires Times(kj, streams) + batch < |d|
    requires |row| == RowLength(width, held[batch] + |words|, kj)
    requires var s := starts[batch] + Times(kj, width);
             row != [] ==> s + |row| <= |placed + words| && row == (placed + words)[s..s + |row|]
    ensures RowsLaid(d[Times(kj, streams) + batch := row], placed + words, streams, width, starts,
                     held[batch := held[batch] + |words|])
  {
    var d', placed', held' := d[Times(kj, streams) + batch := row], placed + words, held[batch := held[batch] + |words|];
    LaidGrowRows(d, placed, streams, width, starts, held, batch, kj, row, words, d', placed', held');
    assert RowLaid(d', placed', streams, width, starts, held', batch, kj);
    forall b: nat, k: nat | b < streams && Times(k, streams) + b < |d'|
      ensures RowLaid(d', placed', streams, width, starts, held', b, k)
    {
      if b == batch && k == kj {
        assert RowLaid(d', placed', streams, width, starts, held', batch, kj);
      }
    }
  }

  /** Row kj of stream `batch`, opened with the last placed word if it was empty and
    * extended by the next words, is the stretch of `placed` extended by those words. */
  lemma OpenedRowLaid(d: seq<seq<int>>, placed: seq<int>, streams: nat, width: nat, starts: seq<nat>, held: seq<nat>,
                      batch: nat, kj: nat, row: seq<int>, words: seq<int>)
    requires 1 <= streams == |starts| == |held| && width >= 1 && batch < streams && Times(kj, streams) + batch < |d|
    requires RowLaid(d, placed, streams, width, starts, held, batch, kj)
    requires Times(kj, width) <= held[batch] && held[batch] + |words| <= Times(kj, width) + width
    requires |placed| == 1 + starts[batch] + held[batch]
    requires row == (var r := d[Times(kj, streams) + batch]; if r == [] then [Last(placed)] else r)
    requires 1 <= |words|
    ensures |row + words| == RowLength(width, held[batch] + |words|, kj)
    ensures var s := starts[batch] + Times(kj, width);
            s + |row + words| <= |placed + words| && row + words == (placed + words)[s..s + |row + words|]
  {
    var s, placed' := starts[batch] + Times(kj, width), placed + words;
    assert |row| == 1 + (held[batch] - Times(kj, width));
    assert s + |row| == |placed|;
    if d[Times(kj, streams) + batch] == [] {
      assert row == [placed[s]];
    } else {
      assert row == placed[s..];
    }
    assert placed'[s..s + |row + words|] == placed[s..] + words;
  }

  /** Row kj of stream `batch`, the one its next word falls in, opened if empty and extended by
    * words that fit, keeps every row laid out with the words added to the stream. */
  lemma FillRows(d: seq<seq<int>>, placed: seq<int>, streams: nat, width: nat, starts: seq<nat>, held: seq<nat>,
                 batch: nat, kj: nat, row: seq<int>, words: seq<int>)
    requires 1 <= streams == |starts| == |held| && width >= 1 && batch < streams
    requires RowsLaid(d, placed, streams, width, starts, held) && Times(kj, streams) + batch < |d|
    requires Times(kj, width) <= held[batch] < Times(kj, width) + width
    requires |placed| == 1 + starts[batch] + held[batch]
    requires row == (var r := d[Times(kj, streams) + batch]; if r == [] then [Last(placed)] else r)
    requires 1 <= |words| && |row| + |words| <= width + 1
    ensures held[batch] + |words| <= Times(kj, width) + width
    ensures Last(row + words) == Last(placed + words)
    ensures RowsLaid(d[Times(kj, streams) + batch := row + words], placed + words, streams, width, starts,
                     held[batch := held[batch] + |words|])
  {
    assert RowLaid(d, placed, streams, width, starts, held, batch, kj);
    OpenedRowLaid(d, placed, streams, width, starts, held, batch, kj, row, words);
    LaidGrow(d, placed, streams, width, starts, held, batch, kj, row + words, words);
  }

  /** Opening sequence j and appending 1..n words that fit takes Dealing to Filled. */
  lemma FillLaid(d: seq<seq<int>>, placed: seq<int>, j: nat, batch: nat, n: int, lastWord: int, remaining: nat,
                 share: nat, spare: nat, streams: nat, maxLength: int, row: seq<int>, words: seq<int>)
    requires Dealing(d, placed, j, batch, n, lastWord, remaining, share, spare, streams, maxLength)
    requires j < |d| && row == (if d[j] == [] then [lastWord] else d[j])
    requires 1 <= |words| <= n && |words| <= remaining && |row| + |words| <= maxLength
    ensures Filled(d[j := row + words], placed + words, j, batch, n - |words|, Last(row + words),
                   remaining - |words|, share, spare, streams, maxLength)
  {
    var w, got := maxLength - 1, Quota(share, spare, batch) - n;
    var kj, got' := RowIndex(got, w), got + |words|;
    var starts, held := Starts(share, spare, streams), Holdings(share, spare, streams, batch, got);
    RowIndexBounds(got, w);
    FillRows(d, placed, streams, w, starts, held, batch, kj, row, words);
    RowIndexUnique(got' - 1, kj, w);
    HoldingsGrow(share, spare, streams, batch, got, |words|);
    assert got' == Quota(share, spare, batch) - (n - |words|);
  }

  /** data.cc:119-120: an empty sequence j opens with the last placed word; a started one is left as it is. */
  method Open(d: seq<seq<int>>, j: nat, lastWord: int) returns (d': seq<seq<int>>)
    requires j < |d|
    ensures |d'| == |d| && forall i :: 0 <= i < |d| && i != j ==> d'[i] == d[i]
    ensures d[j] == [] ==> d'[j] == [lastWord]
    ensures d[j] != [] ==> d'[j] == d[j]
  {
    d' := d;
    if d[j] == [] {
      d' := d[j := [lastWord]];
    }
  }

  /** data.cc:119-126: open sequence j, then move `moved` words of the line into it: as many
    * as the line holds, as fit below `maxLength` and as the stream still takes. No other
    * sequence changes, and the layout moves on by the words moved. */
  method Fill(d: seq<seq<int>>, ghost placed: seq<int>, line: seq<int>, j: nat, batch: nat, n: int, lastWord: int,
              ghost rest: nat, share: nat, spare: nat, streams: nat, maxLength: int)
    returns (d': seq<seq<int>>, ghost placed': seq<int>, line': seq<int>, n': int, lastWord': int, moved: nat)
    requires |line| > 0 && j < |d|
    requires Dealing(d, placed, j, batch, n, lastWord, |line| + rest, share, spare, streams, maxLength)
    ensures var row := (if d[j] == [] then [lastWord] else d[j]);
            && moved == Min(Min(|line|, maxLength - |row|), n)
            && 1 <= moved <= |line|
            && |d'| == |d| && d'[j] == row + line[..moved]
            && (forall i :: 0 <= i < |d| && i != j ==> d'[i] == d[i])
    ensures line' == line[moved..] && n' == n - moved && lastWord' == Last(d'[j])
    ensures placed' == placed + line[..moved]
    ensures Filled(d', placed', j, batch, n', lastWord', |line'| + rest, share, spare, streams, maxLength)
  {
    CurrentRowHasRoom(d, placed, j, batch, n, lastWord, |line| + rest, share, spare, streams, maxLength);
    var started := Open(d, j, lastWord);
    var row := started[j];
    moved := Min(Min(|line|, maxLength - |row|), n);
    var words := line[..moved];
    FillLaid(d, placed, j, batch, n, lastWord, |line| + rest, share, spare, streams, maxLength, row, words);
    d' := started[j := row + words];
    assert d' == d[j := row + words];
    placed' := placed + words;
    line' := line[moved..];
    n' := n - moved;
    lastWord' := Last(row + words);
  }

  /** data.cc:127-128: a sequence with room left stays the one to fill. */
  lemma AdvanceWithinRow(d: seq<seq<int>>, placed: seq<int>, j: nat, batch: nat, n: int, lastWord: int,
                         remaining: nat, share: nat, spare: nat, streams: nat, maxLength: int)
    requires Filled(d, placed, j, batch, n, lastWord, remaining, share, spare, streams, maxLength)
    requires |d[j]| < maxLength
    ensures Placing(d, placed, j, batch, Quota(share, spare, batch) - n, share, spare, streams, maxLength)
  {
    var w, got := maxLength - 1, Quota(share, spare, batch) - n;
    var kj := RowIndex(got - 1, w);
    var held := Holdings(share, spare, streams, batch, got);
    assert RowLaid(d, placed, streams, w, Starts(share, spare, streams), held, batch, kj);
    assert held[batch] == got;
    RoomInRow(w, got, kj);
  }

  /** A row shorter than its full length holds the next word too: word got falls in the
    * same row as word got - 1. */
  lemma RoomInRow(width: nat, got: nat, kj: nat)
    requires width >= 1 && got >= 1 && kj == RowIndex(got - 1, width)
    requires RowLength(width, got, kj) < width + 1
    ensures RowIndex(got, width) == kj
  {
    RowIndexBounds(got - 1, width);
    RowIndexUnique(got, kj, width);
  }

  /** data.cc:129-131 for a stream after the first: a full sequence hands over to the stream's
    * next one, `streams` further on, which is already in the vector. */
  lemma AdvanceNextRow(d: seq<seq<int>>, placed: seq<int>, j: nat, batch: nat, n: int, lastWord: int,
                       remaining: nat, share: nat, spare: nat, streams: nat, maxLength: int)
    requires Filled(d, placed, j, batch, n, lastWord, remaining, share, spare, streams, maxLength)
    requires |d[j]| == maxLength && batch > 0
    ensures Placing(d, placed, j + streams, batch, Quota(share, spare, batch) - n, share, spare, streams, maxLength)
  {
    var w, got := maxLength - 1, Quota(share, spare, batch) - n;
    var kj := RowIndex(got - 1, w);
    var held := Holdings(share, spare, streams, batch, got);
    assert RowLaid(d, placed, streams, w, Starts(share, spare, streams), held, batch, kj);
    assert held[batch] == got;
    FullRow(w, got, kj);
  }

  /** A row at its full length is closed: word got, the next one, opens the following row. */
  lemma FullRow(width: nat, got: nat, kj: nat)
    requires width >= 1 && got >= 1 && kj == RowIndex(got - 1, width)
    requires RowLength(width, got, kj) == width + 1
    ensures RowIndex(got, width) == kj + 1 && Times(kj + 1, width) == got
  {
    RowIndexBounds(got - 1, width);
    RowIndexUnique(got, kj + 1, width);
  }

  /** Row k of stream b among the `streams` rows appended past row kj is empty when stream 0
    * holds exactly kj + 1 rows' words and stream b no more than stream 0. */
  lemma AppendedRowEmpty(streams: nat, width: nat, held: seq<nat>, kj: nat, b: nat, k: nat)
    requires width >= 1 && b < streams == |held| && held[0] == Times(kj + 1, width) && (b == 0 || held[b] == 0)
    requires Times(kj + 1, streams) <= Times(k, streams) + b < Times(kj + 2, streams)
    ensures RowLength(width, held[b], k) == 0
  {
    IndexBelow(b, k, kj + 2, streams);
    IndexBelow(b, k, kj + 1, streams);
  }

  /** While only stream 0 holds words, and exactly kj + 1 full rows of them, appending `streams`
    * empty sequences keeps every row laid out. */
  lemma RowsLaidAppend(d: seq<seq<int>>, placed: seq<int>, streams: nat, width: nat, starts: seq<nat>,
                       held: seq<nat>, kj: nat)
    requires 1 <= streams == |starts| == |held| && width >= 1
    requires held[0] == Times(kj + 1, width) && forall b :: 0 < b < streams ==> held[b] == 0
    requires |d| == Times(kj + 1, streams) && RowsLaid(d, placed, streams, width, starts, held)
    ensures RowsLaid(d + seq(streams, _ => []), placed, streams, width, starts, held)
  {
    var d' := d + seq(streams, _ => []);
    forall b: nat, k: nat | b < streams && Times(k, streams) + b < |d'|
      ensures RowLaid(d', placed, streams, width, starts, held, b, k)
    {
      if |d| <= Times(k, streams) + b {
        AppendedRowEmpty(streams, width, held, kj, b, k);
      } else {
        assert RowLaid(d, placed, streams, width, starts, held, b, k);
      }
    }
  }

  /** data.cc:129-131 for stream 0: a full sequence hands over to the stream's next one, and
    * the vector first grows by `streams` empty sequences to hold it. */
  lemma AdvanceGrow(d: seq<seq<int>>, placed: seq<int>, j: nat, batch: nat, n: int, lastWord: int,
                    remaining: nat, share: nat, spare: nat, streams: nat, maxLength: int)
    requires Filled(d, placed, j, batch, n, lastWord, remaining, share, spare, streams, maxLength)
    requires |d[j]| == maxLength && batch == 0
    ensures Placing(d + seq(streams, _ => []), placed, j + streams, batch, Quota(share, spare, batch) - n,
                    share, spare, streams, maxLength)
  {
    var w, got := maxLength - 1, Quota(share, spare, batch) - n;
    var kj := RowIndex(got - 1, w);
    var starts, held := Starts(share, spare, streams), Holdings(share, spare, streams, batch, got);
    assert RowLaid(d, placed, streams, w, starts, held, batch, kj);
    assert held[batch] == got;
    FullRow(w, got, kj);
    RowsLaidAppend(d, placed, streams, w, starts, held, kj);
  }

  /** data.cc:132-137: once a stream other than the last holds its quota, the next stream
    * takes over at its first sequence, with its own quota still to place. */
  lemma DealingHandOver(d: seq<seq<int>>, placed: seq<int>, j: nat, batch: nat, lastWord: int,
                        remaining: nat, share: nat, spare: nat, streams: nat, maxLength: int)
    requires streams >= 1 && maxLength >= 2 && batch + 1 < streams
    requires remaining == QuotasFrom(share, spare, streams, batch + 1)
    requires |placed| == 1 + QuotasBefore(share, spare, batch) + Quota(share, spare, batch)
    requires lastWord == Last(placed)
    requires Placing(d, placed, j, batch, Quota(share, spare, batch), share, spare, streams, maxLength)
    ensures Dealing(d, placed, batch + 1, batch + 1, Quota(share, spare, batch + 1), lastWord, remaining,
                    share, spare, streams, maxLength)
  {
    var w := maxLength - 1;
    HoldingsHandOver(share, spare, streams, batch);
    IndexBelow(batch + 1, 0, 1 + RowIndex(Held(share, spare, batch, Quota(share, spare, batch), 0), w), streams);
    if remaining > 0 {
      QuotaWhileWordsRemain(share, spare, streams, batch + 1);
    }
  }

  /** data.cc:132: a stream that still has words to place, or the last one, keeps dealing. */
  lemma DealingStays(d: seq<seq<int>>, placed: seq<int>, j: nat, batch: nat, n: int, lastWord: int,
                     remaining: nat, share: nat, spare: nat, streams: nat, maxLength: int)
    requires streams >= 1 && maxLength >= 2 && batch < streams
    requires 0 <= n < Quota(share, spare, batch) && (n == 0 ==> batch == streams - 1)
    requires remaining == n + QuotasFrom(share, spare, streams, batch + 1)
    requires |placed| == 1 + QuotasBefore(share, spare, batch) + (Quota(share, spare, batch) - n)
    requires lastWord == Last(placed)
    requires Placing(d, placed, j, batch, Quota(share, spare, batch) - n, share, spare, streams, maxLength)
    ensures Dealing(d, placed, j, batch, n, lastWord, remaining, share, spare, streams, maxLength)
  {
    var w, got := maxLength - 1, Quota(share, spare, batch) - n;
    var h := Held(share, spare, batch, got, 0);
    if batch > 0 {
      QuotaFirstIsLargest(share, spare, batch);
      RowIndexMonotone(got, h, w);
    }
    IndexBelow(batch, RowIndex(got, w), 1 + RowIndex(h, w), streams);
  }

  /** data.cc:127-138: when sequence j is full, j moves on by `streams` to the stream's next
    * sequence, the vector first growing by `streams` empty rows while stream 0 is being
    * filled; when the stream has its quota and is not the last, the next stream takes over
    * at its first sequence with its own quota. */
  method Advance(d: seq<seq<int>>, ghost placed: seq<int>, j: nat, batch: nat, n: int, lastWord: int,
                 ghost remaining: nat, share: nat, spare: nat, streams: nat, maxLength: int)
    returns (d': seq<seq<int>>, j': nat, batch': nat, n': int)
    requires j < |d|
    requires Filled(d, placed, j, batch, n, lastWord, remaining, share, spare, streams, maxLength)
    ensures d' == if |d[j]| == maxLength && batch == 0 then d + seq(streams, _ => []) else d
    ensures batch' == if n == 0 && batch != streams - 1 then batch + 1 else batch
    ensures n' == if batch' != batch then Quota(share, spare, batch') else n
    ensures j' == if batch' != batch then batch' else if |d[j]| == maxLength then j + streams else j
    ensures Dealing(d', placed, j', batch', n', lastWord, remaining, share, spare, streams, maxLength)
  {
    d', j', batch', n' := d, j, batch, n;
    if |d[j]| == maxLength {
      if batch == 0 {
        AdvanceGrow(d, placed, j, batch, n, lastWord, remaining, share, spare, streams, maxLength);
        d' := d' + seq(streams, _ => []);
      } else {
        AdvanceNextRow(d, placed, j, batch, n, lastWord, remaining, share, spare, streams, maxLength);
      }
      j' := j + streams;
    } else {
      AdvanceWithinRow(d, placed, j, batch, n, lastWord, remaining, share, spare, streams, maxLength);
    }
    if n == 0 && batch != streams - 1 {
      DealingHandOver(d', placed, j', batch, lastWord, remaining, share, spare, streams, maxLength);
      batch' := batch + 1;
      n' := share + (if batch' < spare then 1 else 0);
      j' := batch';
    } else {
      DealingStays(d', placed, j', batch, n, lastWord, remaining, share, spare, streams, maxLength);
    }
  }

  /** One pass of the inner loop of data.cc:117-139: sequence j, which the loop invariant keeps
    * inside the vector, receives the next words of the line, then j and the stream move on.
    * Rows the vector grows by are empty, and no other sequence changes. */
  method DealStep(d: seq<seq<int>>, ghost placed: seq<int>, line: seq<int>,
                  j: nat, batch: nat, n: int, lastWord: int, ghost rest: nat, share: nat, spare: nat, streams: nat, maxLength: int)
    returns (d': seq<seq<int>>, ghost placed': seq<int>, line': seq<int>,
             j': nat, batch': nat, n': int, lastWord': int)
    requires |line| > 0
    requires Dealing(d, placed, j, batch, n, lastWord, |line| + rest, share, spare, streams, maxLength)
    ensures |line'| < |line| && line' == line[|line| - |line'|..]
    ensures placed' == placed + line[..|line| - |line'|]
    ensures |d'| == |d| || |d'| == |d| + streams
    ensures d'[j] == (if d[j] == [] then [lastWord] else d[j]) + line[..|line| - |line'|]
    ensures forall i :: 0 <= i < |d'| && i != j ==> d'[i] == (if i < |d| then d[i] else [])
    ensures Dealing(d', placed', j', batch', n', lastWord', |line'| + rest, share, spare, streams, maxLength)
  {
    var filled, moved;
    filled, placed', line', n', lastWord', moved := Fill(d, placed, line, j, batch, n, lastWord, rest, share, spare, streams, maxLength);
    d', j', batch', n' := Advance(filled, placed', j, batch, n', lastWord', |line'| + rest, share, spare, streams, maxLength);
  }

  /** The inner loop of data.cc:117-139 over one line, until all its words are placed after
    * the earlier ones, the layout taking them in. */
  method DealLine(d: seq<seq<int>>, ghost placed: seq<int>, line: seq<int>,
                  j: nat, batch: nat, n: int, lastWord: int, ghost rest: nat, share: nat, spare: nat, streams: nat, maxLength: int)
    returns (d': seq<seq<int>>, ghost placed': seq<int>, j': nat, batch': nat, n': int, lastWord': int)
    requires Dealing(d, placed, j, batch, n, lastWord, |line| + rest, share, spare, streams, maxLength)
    ensures placed' == placed + line
    ensures Dealing(d', placed', j', batch', n', lastWord', rest, share, spare, streams, maxLength)
  {
    d', placed', j', batch', n', lastWord' := d, placed, j, batch, n, lastWord;
    var left := line;
    while |left| > 0
      invariant Dealing(d', placed', j', batch', n', lastWord', |left| + rest, share, spare, streams, maxLength)
      invariant placed' + left == placed + line
      decreases |left|
    {
      ghost var before := left;
      d', placed', left, j', batch', n', lastWord' :=
        DealStep(d', placed', left, j', batch', n', lastWord', rest, share, spare, streams, maxLength);
      assert before == before[..|before| - |left|] + left;
    }
    assert placed' + left == placed';
  }

  /** Line k joins the lines before it, after any `head`, and adds its length to the lines after it. */
  lemma FlattenAt(head: seq<int>, lines: seq<seq<int>>, k: nat)
    requires k < |lines|
    ensures head + Flatten(lines[..k + 1]) == head + Flatten(lines[..k]) + lines[k]
    ensures |Flatten(lines[k..])| == |lines[k]| + |Flatten(lines[k + 1..])|
  {
    assert lines[..k + 1] == lines[..k] + [lines[k]];
    FlattenAppend(lines[..k], [lines[k]]);
    FlattenSingle(lines[k]);
    assert lines[k..] == [lines[k]] + lines[k + 1..];
    FlattenAppend([lines[k]], lines[k + 1..]);
  }

  /** Once no words remain, every stream holds its quota and the vector is the layout. */
  lemma DealingDone(d: seq<seq<int>>, placed: seq<int>, j: nat, batch: nat, n: int, lastWord: int,
                    share: nat, spare: nat, streams: nat, maxLength: int)
    requires Dealing(d, placed, j, batch, n, lastWord, 0, share, spare, streams, maxLength)
    ensures |d| == Times(1 + RowIndex(Quota(share, spare, 0), maxLength - 1), streams)
    ensures Dealt(d, placed, share, spare, streams, maxLength)
  {
    HoldingsComplete(share, spare, streams, batch);
    LaidFromRows(d, placed, streams, maxLength - 1, Starts(share, spare, streams), Quotas(share, spare, streams));
  }

  /** The outer loop of data.cc:109-140: deals every line's words out in turn, starting from
    * `streams` empty sequences and the boundary index `sb`, until no words remain. */
  method DealLines(lineIndices: seq<seq<int>>, sb: int, share: nat, spare: nat, streams: nat, maxLength: int)
    returns (d: seq<seq<int>>, ghost placed: seq<int>, j: nat, batch: nat, n: int, lastWord: int)
    requires streams >= 1 && maxLength >= 2
    requires QuotasFrom(share, spare, streams, 0) == |Flatten(lineIndices)|
    ensures placed == [sb] + Flatten(lineIndices)
    ensures Dealing(d, placed, j, batch, n, lastWord, 0, share, spare, streams, maxLength)
    ensures lineIndices == [] ==> d == seq(streams, _ => [])
  {
    d := seq(streams, _ => []);
    j, batch := 0, 0;
    n := share + (if spare > 0 then 1 else 0);
    lastWord := sb;
    placed := [sb];
    DealingStarts(share, spare, sb, streams, maxLength);
    assert lineIndices[0..] == lineIndices;
    var k := 0;
    while k < |lineIndices|
      invariant 0 <= k <= |lineIndices|
      invariant placed == [sb] + Flatten(lineIndices[..k])
      invariant Dealing(d, placed, j, batch, n, lastWord, |Flatten(lineIndices[k..])|, share, spare, streams, maxLength)
      invariant k == 0 ==> d == seq(streams, _ => [])
    {
      var line, next := lineIndices[k], k + 1;
      FlattenAt([sb], lineIndices, k);
      ghost var rest := |Flatten(lineIndices[next..])|;
      d, placed, j, batch, n, lastWord :=
        DealLine(d, placed, line, j, batch, n, lastWord, rest, share, spare, streams, maxLength);
      k := next;
    }
    assert lineIndices[..k] == lineIndices;
  }

  /** data.cc:103-140: deals the words of all lines over `streams` streams into the completed
    * layout. The quotient and remainder of `total` over `streams`, which the source computes
    * for the first stream and again at each hand-over, are computed once here and passed on. */
  method Deal(lineIndices: seq<seq<int>>, total: nat, sb: int, streams: nat, maxLength: int)
    returns (d: seq<seq<int>>, ghost placed: seq<int>)
    requires streams >= 1 && maxLength >= 2
    requires total == |Flatten(lineIndices)|
    ensures placed == [sb] + Flatten(lineIndices)
    ensures |d| == Times(1 + RowIndex(Quota(Share(total, streams), Spare(total, streams), 0), maxLength - 1), streams)
    ensures Dealt(d, placed, Share(total, streams), Spare(total, streams), streams, maxLength)
    ensures StreamsHoldQuotas(d, placed, Share(total, streams), Spare(total, streams), streams)
    ensures FullBeforeNext(d, streams, maxLength)
    ensures lineIndices == [] ==> d == seq(streams, _ => [])
  {
    var share, spare := Share(total, streams), Spare(total, streams);
    QuotasSumToTotal(total, streams);
    var j, batch, n, lastWord;
    d, placed, j, batch, n, lastWord := DealLines(lineIndices, sb, share, spare, streams, maxLength);
    DealingDone(d, placed, j, batch, n, lastWord, share, spare, streams, maxLength);
    DealtStreams(d, placed, share, spare, streams, maxLength);
  }

  /** Every sequence of the layout has at most maxLength words. */
  lemma DealtBounded(d: seq<seq<int>>, placed: seq<int>, share: nat, spare: nat, streams: nat, maxLength: int)
    requires streams >= 1 && maxLength >= 2 && Dealt(d, placed, share, spare, streams, maxLength)
    ensures Bounded(d, maxLength)
  {
    forall i | 0 <= i < |d|
      ensures |d[i]| <= maxLength
    {
      IndexSplit(i, streams);
      var k := RowIndex(i, streams);
      assert RowLaid(d, placed, streams, maxLength - 1, Starts(share, spare, streams), Quotas(share, spare, streams),
                     i - Times(k, streams), k);
    }
  }

  /** With no words at all every sequence is empty. */
  lemma DealtNoWords(d: seq<seq<int>>, placed: seq<int>, share: nat, spare: nat, streams: nat, maxLength: int)
    requires streams >= 1 && maxLength >= 2 && Dealt(d, placed, share, spare, streams, maxLength)
    requires QuotasFrom(share, spare, streams, 0) == 0
    ensures forall i :: 0 <= i < |d| ==> d[i] == []
  {
    forall i | 0 <= i < |d|
      ensures d[i] == []
    {
      IndexSplit(i, streams);
      var k := RowIndex(i, streams);
      var b := i - Times(k, streams);
      QuotasExhausted(share, spare, streams, 0, b);
      assert RowLaid(d, placed, streams, maxLength - 1, Starts(share, spare, streams), Quotas(share, spare, streams), b, k);
    }
  }

  /** With words, the first sequence has some, and it opens with the boundary index. */
  lemma DealtOpensWithBoundary(d: seq<seq<int>>, placed: seq<int>, share: nat, spare: nat, streams: nat, maxLength: int)
    requires streams >= 1 && maxLength >= 2 && Dealt(d, placed, share, spare, streams, maxLength)
    requires d != [] && |placed| == 1 + QuotasFrom(share, spare, streams, 0) > 1
    ensures d[0] != [] && d[0][0] == placed[0]
  {
    QuotaWhileWordsRemain(share, spare, streams, 0);
    assert RowLaid(d, placed, streams, maxLength - 1, Starts(share, spare, streams), Quotas(share, spare, streams), 0, 0);
  }

  /** When sequence i + streams, the next one of the same stream, has words, sequence i is
    * full and the later one opens with sequence i's last word. */
  lemma DealtFullBeforeNext(d: seq<seq<int>>, placed: seq<int>, share: nat, spare: nat, streams: nat, maxLength: int, i: nat)
    requires streams >= 1 && maxLength >= 2 && Dealt(d, placed, share, spare, streams, maxLength)
    requires i + streams < |d| && d[i + streams] != []
    ensures |d[i]| == maxLength && d[i + streams][0] == Last(d[i])
  {
    IndexSplit(i, streams);
    var w, k := maxLength - 1, RowIndex(i, streams);
    var b, starts, quotas := i - Times(k, streams), Starts(share, spare, streams), Quotas(share, spare, streams);
    assert i + streams == Times(k + 1, streams) + b;
    assert RowLaid(d, placed, streams, w, starts, quotas, b, k + 1);
    assert RowLaid(d, placed, streams, w, starts, quotas, b, k);
    var start := starts[b] + Times(k, w);
    assert Times(k + 1, w) == Times(k, w) + w;
    assert |d[i]| == maxLength;
    assert d[i + streams][0] == placed[start + w];
    assert Last(d[i]) == d[i][w] == placed[start + w];
  }

  /** The words of stream b's first k sequences, each without its opening word; a sequence
    * past the end counts as empty. */
  ghost function StreamWords(d: seq<seq<int>>, streams: nat, b: nat, k: nat): seq<int>
  {
    if k == 0 then [] else StreamWords(d, streams, b, k - 1) + RowWords(d, streams, b, k - 1)
  }

  /** Row k of stream b without its opening word; empty when the row is empty or past the end. */
  ghost function RowWords(d: seq<seq<int>>, streams: nat, b: nat, k: nat): seq<int>
  {
    var i := Times(k, streams) + b;
    if i < |d| && d[i] != [] then d[i][1..] else []
  }

  /** Each of the first k rows of stream b holds, opening word dropped, the `h` words after s
    * from Times(row, width) up to Times(row + 1, width), as far as there are words. */
  ghost predicate RowsHoldWords(d: seq<seq<int>>, placed: seq<int>, streams: nat, width: nat, s: nat, h: nat, b: nat, k: nat)
    requires s + h <= |placed|
  {
    k == 0 ||
    (RowsHoldWords(d, placed, streams, width, s, h, b, k - 1) &&
     RowWords(d, streams, b, k - 1) == placed[s + Min(Times(k - 1, width), h)..s + Min(Times(k, width), h)])
  }

  /** Row k of stream b, opening word dropped, holds the stream's words from Times(k, width)
    * up to Times(k + 1, width), as far as the stream has words; a row past the end holds none. */
  lemma LaidRowWords(d: seq<seq<int>>, placed: seq<int>, streams: nat, width: nat, starts: seq<nat>, held: seq<nat>,
                     b: nat, k: nat)
    requires 1 <= streams == |starts| == |held| && width >= 1 && b < streams
    requires Laid(d, placed, streams, width, starts, held) && FirstHoldsMost(held)
    requires starts[b] + 1 + held[b] <= |placed|
    ensures var s := starts[b] + 1;
            RowWords(d, streams, b, k) == placed[s + Min(Times(k, width), held[b])..s + Min(Times(k + 1, width), held[b])]
  {
    var i := Times(k, streams) + b;
    if i < |d| {
      assert RowLaid(d, placed, streams, width, starts, held, b, k);
    } else if k >= 1 + RowIndex(held[0], width) {
      PastRowsEmpty(width, held, b, k);
    } else {
      assert RowLength(width, held[b], k) == 0;
    }
  }

  /** `LaidRowWords` for the first k rows of stream b. */
  lemma {:induction false} LaidRowsHoldWords(d: seq<seq<int>>, placed: seq<int>, streams: nat, width: nat,
                                            starts: seq<nat>, held: seq<nat>, b: nat, k: nat)
    requires 1 <= streams == |starts| == |held| && width >= 1 && b < streams
    requires Laid(d, placed, streams, width, starts, held) && FirstHoldsMost(held)
    requires starts[b] + 1 + held[b] <= |placed|
    ensures RowsHoldWords(d, placed, streams, width, starts[b] + 1, held[b], b, k)
  {
    if k > 0 {
      var s, n := starts[b] + 1, k - 1;
      LaidRowsHoldWords(d, placed, streams, width, starts, held, b, n);
      LaidRowWords(d, placed, streams, width, starts, held, b, n);
      assert n + 1 == k;
      assert RowWords(d, streams, b, n) == placed[s + Min(Times(n, width), held[b])..s + Min(Times(k, width), held[b])];
    }
  }

  /** Stream b's first k - 1 rows and its row k - 1, each holding its stretch of the words,
    * together hold the stretch up to row k. */
  lemma StreamStep(d: seq<seq<int>>, placed: seq<int>, streams: nat, width: nat, s: nat, h: nat, b: nat, k: nat)
    requires k >= 1 && s + h <= |placed|
    requires StreamWords(d, streams, b, k - 1) == placed[s..s + Min(Times(k - 1, width), h)]
    requires RowWords(d, streams, b, k - 1) == placed[s + Min(Times(k - 1, width), h)..s + Min(Times(k, width), h)]
    ensures StreamWords(d, streams, b, k) == placed[s..s + Min(Times(k, width), h)]
  {
    var lo, hi := Min(Times(k - 1, width), h), Min(Times(k, width), h);
    assert placed[s..s + hi] == placed[s..s + lo] + placed[s + lo..s + hi];
  }

  /** Stream b's first k rows, opening words dropped, hold its first min(Times(k, width), h)
    * words in order. */
  lemma {:induction false} StreamHoldsWords(d: seq<seq<int>>, placed: seq<int>, streams: nat, width: nat,
                                           s: nat, h: nat, b: nat, k: nat)
    requires s + h <= |placed| && RowsHoldWords(d, placed, streams, width, s, h, b, k)
    ensures StreamWords(d, streams, b, k) == placed[s..s + Min(Times(k, width), h)]
  {
    if k > 0 {
      StreamHoldsWords(d, placed, streams, width, s, h, b, k - 1);
      StreamStep(d, placed, streams, width, s, h, b, k);
    }
  }

  /** Stream b of a layout, its first k sequences with opening words dropped, holds the first
    * min(k * width, held[b]) of its words. */
  lemma LaidStreamWords(d: seq<seq<int>>, placed: seq<int>, streams: nat, width: nat,
                        starts: seq<nat>, held: seq<nat>, b: nat, k: nat)
    requires 1 <= streams == |starts| == |held| && width >= 1 && b < streams
    requires Laid(d, placed, streams, width, starts, held) && FirstHoldsMost(held)
    requires starts[b] + 1 + held[b] <= |placed|
    ensures StreamWords(d, streams, b, k) == placed[starts[b] + 1..starts[b] + 1 + Min(Times(k, width), held[b])]
  {
    LaidRowsHoldWords(d, placed, streams, width, starts, held, b, k);
    StreamHoldsWords(d, placed, streams, width, starts[b] + 1, held[b], b, k);
  }

  /** Stream b's sequences, opening words dropped, hold the words from QuotasBefore(b) on in
    * order: its first k sequences hold the first min(k * (maxLength - 1), Quota(b)) of them. */
  lemma DealtStreamWords(d: seq<seq<int>>, placed: seq<int>, share: nat, spare: nat, streams: nat,
                         maxLength: int, b: nat, k: nat)
    requires streams >= 1 && maxLength >= 2 && Dealt(d, placed, share, spare, streams, maxLength)
    requires |placed| == 1 + QuotasFrom(share, spare, streams, 0) && b < streams
    ensures 1 + QuotasBefore(share, spare, b) + Quota(share, spare, b) <= |placed|
    ensures var from := 1 + QuotasBefore(share, spare, b);
            StreamWords(d, streams, b, k) == placed[from..from + Min(Times(k, maxLength - 1), Quota(share, spare, b))]
  {
    QuotasBeforeAndFrom(share, spare, streams, b + 1);
    QuotasFirstMost(share, spare, streams);
    var w, starts, quotas := maxLength - 1, Starts(share, spare, streams), Quotas(share, spare, streams);
    assert starts[b] == QuotasBefore(share, spare, b) && quotas[b] == Quota(share, spare, b);
    assert starts[b] + 1 + quotas[b] <= |placed|;
    LaidStreamWords(d, placed, streams, w, starts, quotas, b, k);
  }

  /** Stream b's sequences, opening words dropped, hold exactly its quota of words, the ones
    * from QuotasBefore(b) on. */
  lemma DealtStreamHoldsQuota(d: seq<seq<int>>, placed: seq<int>, share: nat, spare: nat, streams: nat, maxLength: int, b: nat)
    requires streams >= 1 && maxLength >= 2 && Dealt(d, placed, share, spare, streams, maxLength)
    requires |placed| == 1 + QuotasFrom(share, spare, streams, 0) && b < streams
    ensures var from := 1 + QuotasBefore(share, spare, b);
            from + Quota(share, spare, b) <= |placed| &&
            StreamWords(d, streams, b, |placed|) == placed[from..from + Quota(share, spare, b)]
  {
    DealtStreamWords(d, placed, share, spare, streams, maxLength, b, |placed|);
    TimesAtLeast(|placed|, maxLength - 1);
  }

  /** Stream b's sequences, opening words dropped, hold exactly its quota of words, the ones
    * from QuotasBefore(b) on, in order. */
  ghost predicate StreamHoldsQuota(d: seq<seq<int>>, placed: seq<int>, share: nat, spare: nat, streams: nat, b: nat)
  {
    var from := 1 + QuotasBefore(share, spare, b);
    from + Quota(share, spare, b) <= |placed| &&
    StreamWords(d, streams, b, |placed|) == placed[from..from + Quota(share, spare, b)]
  }

  /** Every stream holds its quota. */
  ghost predicate StreamsHoldQuotas(d: seq<seq<int>>, placed: seq<int>, share: nat, spare: nat, streams: nat)
  {
    forall b :: 0 <= b < streams ==> StreamHoldsQuota(d, placed, share, spare, streams, b)
  }

  /** Sequence i, when the next sequence of its stream has words, is full, and the later one
    * opens with its last word. */
  ghost predicate FullBefore(d: seq<seq<int>>, streams: nat, maxLength: int, i: nat)
  {
    i + streams < |d| && d[i + streams] != [] ==> |d[i]| == maxLength && d[i] != [] && d[i + streams][0] == Last(d[i])
  }

  /** Every sequence followed by a non-empty one of its stream is full. */
  ghost predicate FullBeforeNext(d: seq<seq<int>>, streams: nat, maxLength: int)
  {
    forall i: nat :: i < |d| ==> FullBefore(d, streams, maxLength, i)
  }

  /** The completed layout, with every word placed, has both properties above. */
  lemma DealtStreams(d: seq<seq<int>>, placed: seq<int>, share: nat, spare: nat, streams: nat, maxLength: int)
    requires streams >= 1 && maxLength >= 2 && Dealt(d, placed, share, spare, streams, maxLength)
    requires |placed| == 1 + QuotasFrom(share, spare, streams, 0)
    ensures StreamsHoldQuotas(d, placed, share, spare, streams)
    ensures FullBeforeNext(d, streams, maxLength)
  {
    forall b | 0 <= b < streams
      ensures StreamHoldsQuota(d, placed, share, spare, streams, b)
    {
      DealtStreamHoldsQuota(d, placed, share, spare, streams, maxLength, b);
    }
    forall i: nat | i < |d|
      ensures FullBefore(d, streams, maxLength, i)
    {
      if i + streams < |d| && d[i + streams] != [] {
        DealtFullBeforeNext(d, placed, share, spare, streams, maxLength, i);
      }
    }
  }

  // ---------------------------------------------------------------------
  // The Data object
  // ---------------------------------------------------------------------

  class Data {
    var data: seq<seq<int>>
    const maxBatchSize: nat
    const maxSequenceLength: int
    const debugNoSb: bool
    const vocabulary: Vocabulary

    /** Data(const SequenceVector, ...): wraps given sequences (data.cc:43-52). */
    constructor FromSequences(sequences: seq<seq<int>>, maxBatchSize: nat, maxSequenceLength: int, vocabulary: Vocabulary)
      ensures data == sequences
      ensures this.maxBatchSize == maxBatchSize && this.maxSequenceLength == maxSequenceLength
      ensures !debugNoSb && this.vocabulary == vocabulary
    {
      data := sequences;
      this.maxBatchSize := maxBatchSize;
      this.maxSequenceLength := maxSequenceLength;
      debugNoSb := false;
      this.vocabulary := vocabulary;
    }

    /** An empty corpus, to be filled by one of the Prepare methods (data.cc:20-29). */
    constructor Empty(maxBatchSize: nat, maxSequenceLength: int, debugNoSb: bool, vocabulary: Vocabulary)
      ensures data == []
      ensures this.maxBatchSize == maxBatchSize && this.maxSequenceLength == maxSequenceLength
      ensures this.debugNoSb == debugNoSb && this.vocabulary == vocabulary
    {
      data := [];
      this.maxBatchSize := maxBatchSize;
      this.maxSequenceLength := maxSequenceLength;
      this.debugNoSb := debugNoSb;
      this.vocabulary := vocabulary;
    }

    /** `max_sequence_length_ - 1` converted to `size_t`. */
    function MaxLength(): nat
      reads this
    {
      (maxSequenceLength - 1) % SizeModulus
    }

    method Append(maxLength: nat, concatenate: bool, current: seq<int>)
      requires concatenate ==> maxLength >= 1
      modifies this
      ensures data == AppendSpec(old(data), maxLength, concatenate, current)
    {
      if concatenate {
        if data == [] {
          data := data + [[]];
        }
        var last := |data| - 1;
        if |data[last]| + |current| <= maxLength {
          data := data[last := data[last] + current];
        } else if |current| <= maxLength {
          data := data + [current];
        } else {
          Overflow(maxLength, current);
        }
      } else {
        data := data + [current];
      }
    }

    /** The splitting loop of `Append`: fill the last sequence up to
      * `maxLength`, then open fresh sequences while words remain. */
    method Overflow(maxLength: nat, current: seq<int>)
      requires maxLength >= 1 && data != [] && |current| > maxLength
      modifies this
      ensures data == old(data[..|data| - 1]) + SplitInto(old(data[|data| - 1]), current, maxLength)
    {
      var last := |data| - 1;
      ghost var target := data[..last] + SplitInto(data[last], current, maxLength);
      var cur := current;
      while |cur| > 0
        invariant last == |data| - 1
        invariant data[..last] + SplitInto(data[last], cur, maxLength) == target
        invariant cur == [] ==> data == target
        decreases |cur|, |data[last]|
      {
        var size := Room(data[last], cur, maxLength);
        ghost var before := data[..last];
        ghost var pieces := SplitInto(data[last], cur, maxLength);
        ghost var oldCur := cur;
        data := data[last := data[last] + cur[..size]];
        cur := cur[size..];
        if |cur| > 0 {
          assert pieces == [data[last]] + SplitInto([], cur, maxLength);
          data := data + [[]];
          last := |data| - 1;
          assert data[..last] == before + [data[last - 1]];
          assert data[..last] + SplitInto(data[last], cur, maxLength) == before + pieces;
        } else {
          assert oldCur[..size] == oldCur;
          assert pieces == [data[last]];
          assert data == before + [data[last]];
          assert data[last] + cur == data[last];
          assert data[..last] == before;
        }
      }
    }

    /** Prefixes every sequence with its predecessor's last element, the first with `sb`. */
    method PrefixSequences(sb: int)
      modifies this
      ensures data == PrefixedFrom(old(data), sb)
    {
      ghost var d0 := data;
      var i := 0;
      while i < |data|
        invariant |data| == |d0|
        invariant 0 <= i <= |data|
        invariant data[i..] == d0[i..]
        invariant forall k :: 0 <= k < i ==> data[k] != []
        invariant data[..i] + PrefixedFrom(d0[i..], if i == 0 then sb else Last(data[i - 1])) == PrefixedFrom(d0, sb)
      {
        var carry := if i == 0 then sb else Last(data[i - 1]);
        ghost var before := data[..i];
        PrefixedFromStep(d0[i..], carry);
        assert d0[i..][1..] == d0[i + 1..];
        data := data[i := [carry] + data[i]];
        assert data[..i + 1] == before + [[carry] + d0[i]];
        i := i + 1;
      }
      assert data[..i] == data;
    }

    /** Sorts each window of `maxBatchSize` sequences by non-increasing length. */
    method SortBatches()
      requires maxBatchSize >= 1
      modifies this
      ensures SortedWindows(old(data), data, maxBatchSize)
    {
      ghost var d0 := data;
      ghost var k := 0;
      var begin := 0;
      while begin != |data|
        invariant |data| == |d0|
        invariant begin <= |data|
        invariant begin == k * maxBatchSize || begin == |data|
        invariant data[begin..] == d0[begin..]
        invariant SortedWindows(d0[..begin], data[..begin], maxBatchSize)
        decreases |data| - begin
      {
        var end := if |data| - begin >= maxBatchSize then begin + maxBatchSize else |data|;
        ghost var prev := data;
        var sorted := SortByLength(data[begin..end]);
        data := data[..begin] + sorted + data[end..];
        SortStep(d0, prev, sorted, maxBatchSize, k, begin, end);
        begin := end;
        k := k + 1;
      }
      assert d0[..begin] == d0 && data[..begin] == data;
    }

    /** The loop of data.cc:86-88: `Append` on every line in order. */
    method AppendLines(maxLength: nat, concatenate: bool, lines: seq<seq<int>>)
      requires concatenate ==> maxLength >= 1
      modifies this
      ensures data == AppendAll(old(data), maxLength, concatenate, lines)
    {
      ghost var d0 := data;
      var k := 0;
      while k < |lines|
        invariant 0 <= k <= |lines|
        invariant data == AppendAll(d0, maxLength, concatenate, lines[..k])
      {
        Append(maxLength, concatenate, lines[k]);
        AppendAllSnoc(d0, maxLength, concatenate, lines[..k], lines[k]);
        assert lines[..k + 1] == lines[..k] + [lines[k]];
        k := k + 1;
      }
      assert lines[..k] == lines;
    }

    /** Reads the file's lines and packs them (data.cc:82-101). Fatal when a line
      * is rejected or when some sequence exceeds `maxSequenceLength` at the end. */
    method PrepareDataSequenceWise(lines: seq<string>, concatenate: bool) returns (r: Outcome<()>, ghost indices: seq<seq<int>>)
      requires data == []
      requires maxBatchSize >= 1
      requires concatenate ==> MaxLength() >= 1
      modifies this
      ensures r.Done? ==> LinesAccepted(vocabulary, lines, |lines|)
      ensures r.Done? ==> Bounded(data, maxSequenceLength)
      ensures r.Done? ==> |indices| == |lines| && LinesRead(vocabulary, debugNoSb, lines, indices)
      ensures r.Done? ==> SortedWindows(Packed(indices, concatenate), data, maxBatchSize)
    {
      var read, _ := ReadIndices(vocabulary, debugNoSb, lines);
      if read.Fatal? {
        return Fatal(read.reason), [];
      }
      var lineIndices := read.value;
      indices := lineIndices;
      AppendLines(MaxLength(), concatenate, lineIndices);
      if !debugNoSb {
        PrefixSequences(vocabulary.sbIndex as int);
      }
      assert data == Packed(indices, concatenate);
      SortBatches();
      var bounded := WithinMaxLength();
      if !bounded {
        return Fatal("sequence longer than max_sequence_length"), indices;
      }
      r := Done(());
    }

    /** The final check of data.cc:98-100: no sequence is longer than
      * `max_sequence_length`. */
    method WithinMaxLength() returns (bounded: bool)
      ensures bounded <==> Bounded(data, maxSequenceLength)
    {
      var j := 0;
      while j < |data|
        invariant 0 <= j <= |data|
        invariant forall i :: 0 <= i < j ==> |data[i]| <= maxSequenceLength
      {
        if |data[j]| > maxSequenceLength {
          return false;
        }
        j := j + 1;
      }
      return true;
    }

    /** Reads the file's lines and deals the words out to `maxBatchSize` streams,
      * stream b taking `Quota(N, maxBatchSize, b)` of them in order and cutting
      * them into sequences of `maxSequenceLength`; sequence k of stream b sits at
      * index k * maxBatchSize + b, and each sequence opens with the word placed
      * just before it (`Dealt`). Trailing empty sequences are dropped at the end
      * (data.cc:103-144). Fatal when a line is rejected, or when `back()` is
      * reached on an empty vector, which happens exactly when there are no words.
      * `placed` is the boundary index followed by every word in order. */
    method PrepareDataWithFixedLength(lines: seq<string>)
      returns (r: Outcome<()>, ghost indices: seq<seq<int>>, ghost placed: seq<int>)
      requires data == []
      requires maxBatchSize >= 1
      requires maxSequenceLength >= 2
      modifies this
      ensures LinesAccepted(vocabulary, lines, |lines|) ==> |indices| == |lines| && LinesRead(vocabulary, debugNoSb, lines, indices)
      ensures r.Done? <==> LinesAccepted(vocabulary, lines, |lines|) && Flatten(indices) != []
      ensures r.Done? ==> placed == [vocabulary.sbIndex as int] + Flatten(indices)
      ensures r.Done? ==> Dealt(data, placed, Share(|Flatten(indices)|, maxBatchSize), Spare(|Flatten(indices)|, maxBatchSize),
                                maxBatchSize, maxSequenceLength)
      ensures r.Done? ==> StreamsHoldQuotas(data, placed, Share(|Flatten(indices)|, maxBatchSize),
                                            Spare(|Flatten(indices)|, maxBatchSize), maxBatchSize)
      ensures r.Done? ==> FullBeforeNext(data, maxBatchSize, maxSequenceLength)
      ensures r.Done? ==> Bounded(data, maxSequenceLength) && data != [] && Last(data) != []
      ensures lines == [] ==> r.Fatal?
    {
      var read, total := ReadIndices(vocabulary, debugNoSb, lines);
      if read.Fatal? {
        return Fatal(read.reason), [], [];
      }
      var lineIndices := read.value;
      indices := lineIndices;
      TotalLengthIsFlattenLength(lineIndices);
      var d;
      d, placed := Deal(lineIndices, total, vocabulary.sbIndex as int, maxBatchSize, maxSequenceLength);
      var share, spare := Share(total, maxBatchSize), Spare(total, maxBatchSize);
      QuotasSumToTotal(total, maxBatchSize);
      DealtBounded(d, placed, share, spare, maxBatchSize, maxSequenceLength);
      if total > 0 {
        DealtOpensWithBoundary(d, placed, share, spare, maxBatchSize, maxSequenceLength);
      } else {
        DealtNoWords(d, placed, share, spare, maxBatchSize, maxSequenceLength);
      }
      // we may have added too many empty sequences in advance
      while Last(d) == []
        invariant d != [] && Dealt(d, placed, share, spare, maxBatchSize, maxSequenceLength)
        invariant Bounded(d, maxSequenceLength)
        invariant total > 0 ==> d[0] != []
        invariant total == 0 ==> forall i :: 0 <= i < |d| ==> d[i] == []
        decreases |d|
      {
        if |d| == 1 {
          return Fatal("back() on an empty vector"), indices, placed;
        }
        LaidDropEmpty(d, placed, maxBatchSize, maxSequenceLength - 1, Starts(share, spare, maxBatchSize), Quotas(share, spare, maxBatchSize));
        d := d[..|d| - 1];
      }
      DealtStreams(d, placed, share, spare, maxBatchSize, maxSequenceLength);
      data := d;
      r := Done(());
    }

    /** The sequences before sorting: the lines appended, then prefixed unless `debugNoSb`. */
    ghost function Packed(indices: seq<seq<int>>, concatenate: bool): seq<seq<int>>
      reads this
      requires concatenate ==> MaxLength() >= 1
    {
      var appended := AppendAll([], MaxLength(), concatenate, indices);
      if debugNoSb then appended else PrefixedFrom(appended, vocabulary.sbIndex as int)
    }

    /** `CountNumRunningWords` (data.h:191-196). */
    function CountNumRunningWords(): int
      reads this
    {
      RunningWords(data)
    }

    /** `GetNumBatches` (data.h:198-200): the number of batch windows. */
    function GetNumBatches(): nat
      reads this
      requires maxBatchSize >= 1
    {
      (|data| + maxBatchSize - 1) / maxBatchSize
    }

    /** Lexicographic sort, `std::random_shuffle`, then `SortBatches` (data.h:184-189).
      * `draws` are the generator's answers; the shuffle swaps position i with
      * position draws[i-1] for i = 1..n-1. The order before `SortBatches` is
      * `ShuffledOrder` of the old data, which depends only on which sequences
      * there are (`ShuffleIgnoresEarlierOrder`). */
    method Shuffle(draws: seq<nat>)
      requires maxBatchSize >= 1
      requires ShuffleDraws(draws, |data|)
      modifies this
      ensures multiset(data) == multiset(old(data))
      ensures exists mid: seq<seq<int>> :: multiset(mid) == multiset(old(data)) && SortedWindows(mid, data, maxBatchSize)
      ensures SortedWindows(ShuffledOrder(old(data), draws), data, maxBatchSize)
    {
      var sorted := LexSort(data);
      data := RandomShuffle(sorted, draws);
      ghost var mid := data;
      SortBatches();
      SortedWindowsIsPermutation(mid, data, maxBatchSize);
    }
  }

  lemma {:induction false} AppendAllSnoc(data: seq<seq<int>>, maxLength: nat, concatenate: bool, lines: seq<seq<int>>, line: seq<int>)
    requires concatenate ==> maxLength >= 1
    ensures AppendAll(data, maxLength, concatenate, lines + [line])
         == AppendSpec(AppendAll(data, maxLength, concatenate, lines), maxLength, concatenate, line)
    decreases |lines|
  {
    if lines == [] {
      assert [line][1..] == [];
    } else {
      assert (lines + [line])[1..] == lines[1..] + [line];
      AppendAllSnoc(AppendSpec(data, maxLength, concatenate, lines[0]), maxLength, concatenate, lines[1..], line);
    }
  }

}

