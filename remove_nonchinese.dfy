/**
 * The corpus filter of remove_nonchinese_seperate_word.py: every word made
 * only of CJK unified ideographs U+4E00..U+9FA5 is cut into its characters,
 * every other word becomes the placeholder "o", and each token is written
 * followed by one space, one output line per input line. The progress
 * printing is left out; files are given and returned as lists of lines.
 */
module RemoveNonChinese {
  import opened Common
  import opened Text

  /** The marker the script stores for a non-Chinese word. */
  const Others: string := "others"

  predicate IsHanzi(c: char)
  {
    '\U{4E00}' <= c <= '\U{9FA5}'
  }

  /** `isChinese` (remove_nonchinese_seperate_word.py:1-7); the empty word qualifies. */
  predicate IsChinese(word: string)
  {
    forall i :: 0 <= i < |word| ==> IsHanzi(word[i])
  }

  /** The loop of remove_nonchinese_seperate_word.py:2-7, returning at the first
    * character outside the range. */
  method IsChineseLoop(word: string) returns (r: bool)
    ensures r <==> IsChinese(word)
  {
    var i := 0;
    while i < |word|
      invariant 0 <= i <= |word|
      invariant forall k :: 0 <= k < i ==> IsHanzi(word[k])
    {
      if '\U{4E00}' <= word[i] && word[i] <= '\U{9FA5}' {
        i := i + 1;
      } else {
        return false;
      }
    }
    return true;
  }

  /** The tokens a word is written as. */
  function Tokens(word: string): seq<string>
  {
    if IsChinese(word) then Chars(word) else ["o"]
  }

  /** The tokens written for a line's words, in order. */
  function OutTokens(words: seq<string>): seq<string>
  {
    if words == [] then [] else Tokens(words[0]) + OutTokens(words[1..])
  }

  /** One output line: every token followed by a space, then a newline. */
  function LineOutput(line: string): string
  {
    Terminated(OutTokens(Split(line))) + "\n"
  }

  lemma {:induction false} OutTokensSnoc(words: seq<string>, w: string)
    ensures OutTokens(words + [w]) == OutTokens(words) + Tokens(w)
    decreases |words|
  {
    if words == [] {
      assert [w][1..] == [];
    } else {
      assert (words + [w])[1..] == words[1..] + [w];
      OutTokensSnoc(words[1..], w);
    }
  }

  /** remove_nonchinese_seperate_word.py:22-27: the words, non-Chinese ones
    * replaced by the marker. */
  method MarkWords(words: seq<string>) returns (temp: seq<string>)
    ensures |temp| == |words|
    ensures forall i :: 0 <= i < |words| ==> temp[i] == if IsChinese(words[i]) then words[i] else Others
  {
    temp := [];
    var i := 0;
    while i < |words|
      invariant 0 <= i <= |words| && |temp| == i
      invariant forall k :: 0 <= k < i ==> temp[k] == if IsChinese(words[k]) then words[k] else Others
    {
      var chinese := IsChineseLoop(words[i]);
      if !chinese {
        temp := temp + [Others];
      } else {
        temp := temp + [words[i]];
      }
      i := i + 1;
    }
  }

  /** A Chinese word can never be mistaken for the marker. */
  lemma ChineseIsNotOthers(word: string)
    requires IsChinese(word)
    ensures word != Others
  {
    assert !IsHanzi(Others[0]);
  }

  /** remove_nonchinese_seperate_word.py:29-35: what one marked word is written as. */
  method WriteMarked(w: string) returns (piece: string)
    ensures w == Others ==> piece == Terminated(["o"])
    ensures w != Others ==> piece == Terminated(Chars(w))
  {
    if w == Others {
      piece := "o" + " ";
      assert Terminated(["o"]) == "o" + " " + Terminated([]);
    } else {
      piece := "";
      var m := 0;
      while m < |w|
        invariant 0 <= m <= |w|
        invariant piece == Terminated(Chars(w)[..m])
      {
        assert Chars(w)[..m + 1] == Chars(w)[..m] + [[w[m]]];
        TerminatedSnoc(Chars(w)[..m], [w[m]]);
        piece := piece + [w[m]] + " ";
        m := m + 1;
      }
      assert Chars(w)[..m] == Chars(w);
    }
  }

  /** remove_nonchinese_seperate_word.py:28-36: writes the marked words and the newline. */
  method WriteLine(ghost words: seq<string>, temp: seq<string>) returns (out: string)
    requires |temp| == |words|
    requires forall i :: 0 <= i < |words| ==> temp[i] == if IsChinese(words[i]) then words[i] else Others
    ensures out == Terminated(OutTokens(words)) + "\n"
  {
    out := "";
    var k := 0;
    while k < |temp|
      invariant 0 <= k <= |temp|
      invariant out == Terminated(OutTokens(words[..k]))
    {
      var piece := WriteMarked(temp[k]);
      if IsChinese(words[k]) {
        ChineseIsNotOthers(words[k]);
      }
      assert piece == Terminated(Tokens(words[k]));
      WrittenSnoc(words, k);
      out := out + piece;
      k := k + 1;
    }
    assert words[..k] == words;
    out := out + "\n";
  }

  lemma WrittenSnoc(words: seq<string>, k: nat)
    requires k < |words|
    ensures Terminated(OutTokens(words[..k + 1])) == Terminated(OutTokens(words[..k])) + Terminated(Tokens(words[k]))
  {
    OutTokensSnoc(words[..k], words[k]);
    assert words[..k + 1] == words[..k] + [words[k]];
    TerminatedAppend(OutTokens(words[..k]), Tokens(words[k]));
  }

  /** One input line (remove_nonchinese_seperate_word.py:22-37); `temp` starts
    * empty for every line. */
  method RewriteLine(line: string) returns (out: string)
    ensures out == LineOutput(line)
  {
    var words := Split(line);
    var temp := MarkWords(words);
    out := WriteLine(words, temp);
  }

  /** The whole file (remove_nonchinese_seperate_word.py:16-37): line i of the
    * output is the rewrite of line i of the input alone. */
  method Run(lines: seq<string>) returns (out: seq<string>)
    ensures |out| == |lines|
    ensures forall i :: 0 <= i < |lines| ==> out[i] == LineOutput(lines[i])
  {
    out := [];
    var i := 0;
    while i < |lines|
      invariant 0 <= i <= |lines| && |out| == i
      invariant forall k :: 0 <= k < i ==> out[k] == LineOutput(lines[k])
    {
      var written := RewriteLine(lines[i]);
      out := out + [written];
      i := i + 1;
    }
  }

  lemma {:induction false} OutTokensAreWords(words: seq<string>)
    requires forall k :: 0 <= k < |words| ==> IsWord(words[k])
    ensures forall k :: 0 <= k < |OutTokens(words)| ==> IsWord(OutTokens(words)[k]) && '\n' !in OutTokens(words)[k]
    decreases |words|
  {
    if words != [] {
      OutTokensAreWords(words[1..]);
      var t := Tokens(words[0]);
      assert forall k :: 0 <= k < |t| ==> IsWord(t[k]) && '\n' !in t[k] by {
        if IsChinese(words[0]) {
          forall k | 0 <= k < |t| ensures IsWord(t[k]) && '\n' !in t[k] {
            assert t[k] == [words[0][k]] && IsHanzi(words[0][k]);
          }
        }
      }
    }
  }

  /** Each output line ends in its only newline, and splitting it gives the
    * characters of each Chinese word and "o" for every other word, in order. */
  lemma LineOutputTokens(line: string)
    ensures Split(LineOutput(line)) == OutTokens(Split(line))
    ensures LineOutput(line)[|LineOutput(line)| - 1] == '\n'
    ensures '\n' !in LineOutput(line)[..|LineOutput(line)| - 1]
  {
    var ts := OutTokens(Split(line));
    OutTokensAreWords(Split(line));
    SplitTerminated(ts);
    var s := LineOutput(line);
    SplitSkipsTrailingSpace(s, |s| - 1);
    assert s[..|s| - 1] == Terminated(ts);
    TerminatedNoNewline(ts);
  }
}
