/**
 * Whitespace tokenisation shared by the C++ reader (`istringstream >> word`
 * on a trimmed line) and the Python scripts (`str.split()`): both split on
 * the six classic whitespace characters and never produce an empty token.
 */
module Text {

  predicate IsSpace(c: char)
  {
    c == ' ' || c == '\t' || c == '\n' || c == '\r' || c == '\U{B}' || c == '\U{C}'
  }

  /** A token: non-empty and free of whitespace. */
  predicate IsWord(w: string)
  {
    w != [] && forall i :: 0 <= i < |w| ==> !IsSpace(w[i])
  }

  /** Length of the leading run of non-whitespace characters. */
  function WordLength(s: string): (n: nat)
    ensures n <= |s|
    ensures forall i :: 0 <= i < n ==> !IsSpace(s[i])
    ensures n < |s| ==> IsSpace(s[n])
  {
    if s == [] || IsSpace(s[0]) then 0 else 1 + WordLength(s[1..])
  }

  /** The whitespace-separated tokens of `s`, in order. */
  function Split(s: string): (r: seq<string>)
    ensures forall k :: 0 <= k < |r| ==> IsWord(r[k])
    decreases |s|
  {
    if s == [] then []
    else if IsSpace(s[0]) then Split(s[1..])
    else
      var n := WordLength(s);
      [s[..n]] + Split(s[n..])
  }

  /** Each token followed by one space: the Python `w + " "` writing loop. */
  function Terminated(ws: seq<string>): string
  {
    if ws == [] then "" else ws[0] + " " + Terminated(ws[1..])
  }

  /** Tokens separated by single spaces, nothing after the last one. */
  function Joined(ws: seq<string>): string
  {
    if ws == [] then "" else if |ws| == 1 then ws[0] else ws[0] + " " + Joined(ws[1..])
  }

  lemma {:induction false} WordLengthOfWordThenSpace(w: string, rest: string)
    requires IsWord(w)
    ensures WordLength(w + " " + rest) == |w|
    decreases |w|
  {
    var s := w + " " + rest;
    if |w| == 1 {
      assert s[1..] == " " + rest;
    } else {
      assert s[1..] == w[1..] + " " + rest;
      WordLengthOfWordThenSpace(w[1..], rest);
    }
  }

  lemma WordLengthOfWord(w: string)
    requires IsWord(w)
    ensures WordLength(w) == |w|
  {
  }

  lemma SplitWordThenSpace(w: string, rest: string)
    requires IsWord(w)
    ensures Split(w + " " + rest) == [w] + Split(rest)
  {
    var s := w + " " + rest;
    WordLengthOfWordThenSpace(w, rest);
    assert s[..|w|] == w;
    assert s[|w|..] == " " + rest;
    assert Split(" " + rest) == Split(rest) by {
      assert (" " + rest)[1..] == rest;
    }
  }

  lemma SplitWord(w: string)
    requires IsWord(w)
    ensures Split(w) == [w]
  {
    WordLengthOfWord(w);
    assert w[..|w|] == w;
    assert w[|w|..] == [];
  }

  /** Writing tokens each followed by a space and splitting again gives the tokens back. */
  lemma {:induction false} SplitTerminated(ws: seq<string>)
    requires forall k :: 0 <= k < |ws| ==> IsWord(ws[k])
    ensures Split(Terminated(ws)) == ws
  {
    if ws != [] {
      SplitWordThenSpace(ws[0], Terminated(ws[1..]));
      SplitTerminated(ws[1..]);
    }
  }

  /** Joining tokens with single spaces and splitting again gives the tokens back. */
  lemma {:induction false} SplitJoined(ws: seq<string>)
    requires forall k :: 0 <= k < |ws| ==> IsWord(ws[k])
    ensures Split(Joined(ws)) == ws
  {
    if |ws| == 1 {
      SplitWord(ws[0]);
    } else if |ws| > 1 {
      SplitWordThenSpace(ws[0], Joined(ws[1..]));
      SplitJoined(ws[1..]);
    }
  }

  /** The writing loop itself: each token, then a space, appended in order. */
  method WriteTerminated(ws: seq<string>) returns (text: string)
    ensures text == Terminated(ws)
  {
    text := "";
    var j := 0;
    while j < |ws|
      invariant 0 <= j <= |ws|
      invariant text == Terminated(ws[..j])
    {
      TerminatedSnoc(ws[..j], ws[j]);
      assert ws[..j + 1] == ws[..j] + [ws[j]];
      text := text + ws[j] + " ";
      j := j + 1;
    }
    assert ws[..j] == ws;
  }

  lemma {:induction false} TerminatedSnoc(ws: seq<string>, w: string)
    ensures Terminated(ws + [w]) == Terminated(ws) + w + " "
    decreases |ws|
  {
    if ws == [] {
      assert [w][1..] == [];
    } else {
      assert (ws + [w])[1..] == ws[1..] + [w];
      TerminatedSnoc(ws[1..], w);
    }
  }

  /** Joining with single spaces is writing all but the last token with a space after it, then the last. */
  lemma {:induction false} JoinedIsTerminatedThenLast(ws: seq<string>)
    requires ws != []
    ensures Joined(ws) == Terminated(ws[..|ws| - 1]) + ws[|ws| - 1]
    decreases |ws|
  {
    if |ws| == 1 {
      assert ws[..0] == [];
    } else {
      JoinedIsTerminatedThenLast(ws[1..]);
      assert ws[1..][..|ws| - 2] == ws[..|ws| - 1][1..];
    }
  }

  /** Length of the leading run of whitespace. */
  function SpaceLength(s: string): (n: nat)
    ensures n <= |s|
    ensures forall i :: 0 <= i < n ==> IsSpace(s[i])
    ensures n < |s| ==> !IsSpace(s[n])
  {
    if s == [] || !IsSpace(s[0]) then 0 else 1 + SpaceLength(s[1..])
  }

  /** Length of the trailing run of whitespace. */
  function TrailingSpaceLength(s: string): (n: nat)
    ensures n <= |s|
    ensures forall i :: |s| - n <= i < |s| ==> IsSpace(s[i])
    ensures n < |s| ==> !IsSpace(s[|s| - n - 1])
  {
    if s == [] || !IsSpace(s[|s| - 1]) then 0 else 1 + TrailingSpaceLength(s[..|s| - 1])
  }

  /** Python's `str.strip()`: the text between the leading and the trailing whitespace. */
  function Strip(s: string): (r: string)
    ensures r == [] || (!IsSpace(r[0]) && !IsSpace(r[|r| - 1]))
    ensures exists i, j ::
              && 0 <= i <= j <= |s| && r == s[i..j]
              && (forall k :: 0 <= k < i ==> IsSpace(s[k]))
              && (forall k :: j <= k < |s| ==> IsSpace(s[k]))
  {
    var i := SpaceLength(s);
    var j := i + |s[i..]| - TrailingSpaceLength(s[i..]);
    TrailingSpaceOfSuffix(s, i);
    assert s[i..j] == [] || (s[i..j][0] == s[i] && s[i..j][j - i - 1] == s[j - 1]);
    s[i..j]
  }

  /** The trailing space of s[i..] is the trailing space of s, and the character before it
    * is not a space. */
  lemma TrailingSpaceOfSuffix(s: string, i: nat)
    requires i <= |s|
    ensures var j := i + |s[i..]| - TrailingSpaceLength(s[i..]);
            && i <= j <= |s|
            && (forall k :: j <= k < |s| ==> IsSpace(s[k]))
            && (j > i ==> !IsSpace(s[j - 1]))
  {
    var rest := s[i..];
    var j := i + |rest| - TrailingSpaceLength(rest);
    forall k | j <= k < |s|
      ensures IsSpace(s[k])
    {
      assert s[k] == rest[k - i];
    }
    if j > i {
      assert s[j - 1] == rest[|rest| - TrailingSpaceLength(rest) - 1];
    }
  }

  /** Each character of `s` as a one-character token. */
  function Chars(s: string): (r: seq<string>)
    ensures |r| == |s| && forall i :: 0 <= i < |r| ==> r[i] == [s[i]]
  {
    seq(|s|, i requires 0 <= i < |s| => [s[i]])
  }

  predicate StartsWith(s: string, prefix: string)
  {
    |prefix| <= |s| && s[..|prefix|] == prefix
  }

  predicate EndsWith(s: string, suffix: string)
  {
    |suffix| <= |s| && s[|s| - |suffix|..] == suffix
  }

  /** Stripping a line first does not change its tokens. */
  lemma StripKeepsTokens(line: string)
    ensures Split(Strip(line)) == Split(line)
  {
    var i, j :| 0 <= i <= j <= |line| && Strip(line) == line[i..j]
             && (forall k :: 0 <= k < i ==> IsSpace(line[k])) && (forall k :: j <= k < |line| ==> IsSpace(line[k]));
    SplitSkipsSpaces(line, i, j);
  }

  /** Dropping leading space up to i and trailing space from j keeps the tokens. */
  lemma SplitSkipsSpaces(s: string, i: nat, j: nat)
    requires i <= j <= |s|
    requires forall k :: 0 <= k < i ==> IsSpace(s[k])
    requires forall k :: j <= k < |s| ==> IsSpace(s[k])
    ensures Split(s[i..j]) == Split(s)
  {
    SplitSkipsLeadingSpace(s, i);
    SplitSkipsTrailingSpaceOfSuffix(s, i, j);
  }

  /** Dropping trailing space from j keeps the tokens of the suffix from i. */
  lemma SplitSkipsTrailingSpaceOfSuffix(s: string, i: nat, j: nat)
    requires i <= j <= |s|
    requires forall k :: j <= k < |s| ==> IsSpace(s[k])
    ensures Split(s[i..j]) == Split(s[i..])
  {
    var rest := s[i..];
    forall k | j - i <= k < |rest|
      ensures IsSpace(rest[k])
    {
      assert rest[k] == s[i + k];
    }
    SplitSkipsTrailingSpace(rest, j - i);
    assert rest[..j - i] == s[i..j];
  }

  lemma {:induction false} SplitSkipsLeadingSpace(s: string, i: nat)
    requires i <= |s| && forall k :: 0 <= k < i ==> IsSpace(s[k])
    ensures Split(s[i..]) == Split(s)
    decreases i
  {
    if i > 0 {
      assert s[1..][i - 1..] == s[i..];
      SplitSkipsLeadingSpace(s[1..], i - 1);
    }
  }

  lemma {:induction false} SplitSkipsTrailingSpace(s: string, j: nat)
    requires j <= |s| && forall k :: j <= k < |s| ==> IsSpace(s[k])
    ensures Split(s[..j]) == Split(s)
    decreases |s|
  {
    if s != [] {
      if j == 0 {
        AllSpaceSplitsEmpty(s);
        assert s[..0] == [];
      } else if IsSpace(s[0]) {
        assert s[1..][..j - 1] == s[..j][1..];
        SplitSkipsTrailingSpace(s[1..], j - 1);
      } else {
        var n := WordLength(s);
        if j < |s| {
          WordLengthAtMost(s, j);
        }
        assert WordLength(s[..j]) == n by {
          WordLengthOfPrefix(s, j);
        }
        assert s[..j][..n] == s[..n];
        assert s[..j][n..] == s[n..][..j - n];
        SplitSkipsTrailingSpace(s[n..], j - n);
      }
    }
  }

  lemma WordLengthAtMost(s: string, j: nat)
    requires j < |s| && IsSpace(s[j])
    ensures WordLength(s) <= j
  {
  }

  lemma {:induction false} WordLengthOfPrefix(s: string, j: nat)
    requires j <= |s| && WordLength(s) <= j && (WordLength(s) < j || j == |s| || IsSpace(s[j]))
    ensures WordLength(s[..j]) == WordLength(s)
    decreases |s|
  {
    if s != [] && !IsSpace(s[0]) && j > 0 {
      assert s[..j][1..] == s[1..][..j - 1];
      WordLengthOfPrefix(s[1..], j - 1);
    }
  }

  lemma {:induction false} AllSpaceSplitsEmpty(s: string)
    requires forall k :: 0 <= k < |s| ==> IsSpace(s[k])
    ensures Split(s) == []
    decreases |s|
  {
    if s != [] {
      AllSpaceSplitsEmpty(s[1..]);
    }
  }

  lemma SplitJoinedNewline(ws: seq<string>)
    requires forall k :: 0 <= k < |ws| ==> IsWord(ws[k])
    ensures Split(Joined(ws) + "\n") == Split(Joined(ws))
  {
    var s := Joined(ws) + "\n";
    SplitSkipsTrailingSpace(s, |s| - 1);
    assert s[..|s| - 1] == Joined(ws);
  }

  lemma {:induction false} TerminatedAppend(ws: seq<string>, vs: seq<string>)
    ensures Terminated(ws + vs) == Terminated(ws) + Terminated(vs)
    decreases |ws|
  {
    if ws == [] {
      assert ws + vs == vs;
    } else {
      assert (ws + vs)[1..] == ws[1..] + vs;
      TerminatedAppend(ws[1..], vs);
    }
  }

  /** Text written as tokens each followed by a space holds a newline only where a token does. */
  lemma {:induction false} TerminatedNoNewline(ws: seq<string>)
    requires forall k :: 0 <= k < |ws| ==> '\n' !in ws[k]
    ensures '\n' !in Terminated(ws)
    decreases |ws|
  {
    if ws != [] {
      TerminatedNoNewline(ws[1..]);
    }
  }

  /** Text that ends in whitespace splits independently of what follows it. */
  lemma {:induction false} SplitAfterSpace(a: string, b: string)
    requires a == [] || IsSpace(a[|a| - 1])
    ensures Split(a + b) == Split(a) + Split(b)
    decreases |a|
  {
    if a == [] {
      assert a + b == b;
    } else if IsSpace(a[0]) {
      assert (a + b)[1..] == a[1..] + b;
      SplitAfterSpace(a[1..], b);
    } else {
      var n := WordLength(a);
      WordLengthAtMost(a, |a| - 1);
      WordLengthAtMost(a + b, |a| - 1);
      WordLengthOfPrefix(a + b, |a|);
      assert (a + b)[..|a|] == a;
      assert (a + b)[..n] == a[..n];
      assert (a + b)[n..] == a[n..] + b;
      SplitAfterSpace(a[n..], b);
    }
  }

  /** A line written as tokens each followed by a space, then a newline, splits
    * back into those tokens. */
  lemma SplitTerminatedLine(ws: seq<string>)
    requires forall k :: 0 <= k < |ws| ==> IsWord(ws[k])
    ensures Split(Terminated(ws) + "\n") == ws
  {
    SplitTerminated(ws);
    TerminatedEndsInSpace(ws);
    SplitAfterSpace(Terminated(ws), "\n");
    AllSpaceSplitsEmpty("\n");
  }

  /** Text written by the token loop is empty or ends in a space. */
  lemma TerminatedEndsInSpace(ws: seq<string>)
    ensures var t := Terminated(ws); t == [] || IsSpace(t[|t| - 1])
  {
    if ws != [] {
      TerminatedSnoc(ws[..|ws| - 1], ws[|ws| - 1]);
      assert ws[..|ws| - 1] + [ws[|ws| - 1]] == ws;
    }
  }
}
