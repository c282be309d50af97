/**
 * The short-sentence filter (get_short_train_data.py): a corpus line is kept
 * when it has fewer than 20 tokens and is then rewritten as its tokens, each
 * followed by a space, and a newline. The input file is given as its lines;
 * the written file is returned.
 */
module ShortTrain {
  import opened Common
  import opened Text

  /** get_short_train_data.py:11: lines with this many tokens or more are dropped. */
  const MaxTokens: nat := 20

  /** What one input line becomes in the output file. */
  function LineOutput(line: string): string
  {
    var words := Split(line);
    if |words| < MaxTokens then Terminated(words) + "\n" else ""
  }

  /** The output file for the first lines of the corpus. */
  function Output(lines: seq<string>): string
  {
    if lines == [] then "" else Output(lines[..|lines| - 1]) + LineOutput(lines[|lines| - 1])
  }

  /** The token lists of the kept lines, in input order. */
  function Kept(lines: seq<string>): (r: seq<seq<string>>)
    ensures |r| <= |lines|
    ensures forall k :: 0 <= k < |r| ==> |r[k]| < MaxTokens
  {
    if lines == [] then []
    else
      var words := Split(lines[|lines| - 1]);
      Kept(lines[..|lines| - 1]) + (if |words| < MaxTokens then [words] else [])
  }

  /** The kept lines, each written as its tokens with a space after each and a newline. */
  function KeptText(kept: seq<seq<string>>): string
  {
    if kept == [] then "" else KeptText(kept[..|kept| - 1]) + Terminated(kept[|kept| - 1]) + "\n"
  }

  /** get_short_train_data.py:9-15: every line in turn, short ones written out. */
  method Run(lines: seq<string>) returns (out: string)
    ensures out == Output(lines)
  {
    out := "";
    var i := 0;
    while i < |lines|
      invariant 0 <= i <= |lines|
      invariant out == Output(lines[..i])
    {
      var words := Split(lines[i]);
      OutputSnoc(lines, i);
      if |words| < MaxTokens {
        var line := WriteTerminated(words);
        out := out + (line + "\n");
      }
      i := i + 1;
    }
    assert lines[..i] == lines;
  }

  lemma OutputSnoc(lines: seq<string>, i: nat)
    requires i < |lines|
    ensures Output(lines[..i + 1]) == Output(lines[..i]) + LineOutput(lines[i])
  {
    assert lines[..i + 1][..i] == lines[..i];
  }

  /** The output is exactly the kept lines, in order: a line is kept iff it has
    * fewer than 20 tokens, and a kept line with no tokens becomes "\n". */
  lemma {:induction false} OutputIsKeptLines(lines: seq<string>)
    ensures Output(lines) == KeptText(Kept(lines))
  {
    if lines != [] {
      var init := lines[..|lines| - 1];
      var words := Split(lines[|lines| - 1]);
      OutputIsKeptLines(init);
      assert Output(lines) == Output(init) + LineOutput(lines[|lines| - 1]);
      if |words| < MaxTokens {
        var k := Kept(init) + [words];
        assert Kept(lines) == k;
        assert k[..|k| - 1] == Kept(init);
        assert KeptText(k) == KeptText(Kept(init)) + Terminated(words) + "\n";
      } else {
        assert Kept(lines) == Kept(init);
      }
    }
  }

  /** A line is among the kept ones iff it has fewer than 20 tokens. */
  lemma {:induction false} KeptMembers(lines: seq<string>, words: seq<string>)
    ensures words in Kept(lines) <==>
              |words| < MaxTokens && exists i :: 0 <= i < |lines| && Split(lines[i]) == words
  {
    if lines != [] {
      var init := lines[..|lines| - 1];
      KeptMembers(init, words);
      if words in Kept(lines) && words !in Kept(init) {
        assert Split(lines[|lines| - 1]) == words;
      }
      if exists i :: 0 <= i < |lines| && Split(lines[i]) == words {
        var i :| 0 <= i < |lines| && Split(lines[i]) == words;
        if i < |lines| - 1 {
          assert init[i] == lines[i];
        }
      }
    }
  }

  /** Reading the output back as whitespace tokens gives the kept lines'
    * tokens, one after the other. */
  lemma {:induction false} OutputTokens(kept: seq<seq<string>>)
    requires forall k, j :: 0 <= k < |kept| && 0 <= j < |kept[k]| ==> IsWord(kept[k][j])
    ensures Split(KeptText(kept)) == Flatten(kept)
  {
    if kept != [] {
      var init := kept[..|kept| - 1];
      var last := kept[|kept| - 1];
      OutputTokens(init);
      var t := KeptText(init);
      assert t == [] || t[|t| - 1] == '\n';
      SplitAfterSpace(t, Terminated(last) + "\n");
      assert KeptText(kept) == t + (Terminated(last) + "\n");
      SplitTerminatedLine(last);
      FlattenAppend(init, [last]);
      FlattenSingle(last);
      assert init + [last] == kept;
    }
  }

  /** Every kept token list is the split of some input line, so its entries are words. */
  lemma KeptAreWords(lines: seq<string>)
    ensures forall k, j :: 0 <= k < |Kept(lines)| && 0 <= j < |Kept(lines)[k]| ==> IsWord(Kept(lines)[k][j])
  {
    forall k, j | 0 <= k < |Kept(lines)| && 0 <= j < |Kept(lines)[k]|
      ensures IsWord(Kept(lines)[k][j])
    {
      KeptMembers(lines, Kept(lines)[k]);
    }
  }
}
