/**
 * The out-of-vocabulary filter (replace_by_unk.py): every token of the
 * training text that is not a line of the vocabulary file is written as
 * "<unk>". File contents are given as lists of lines; the text written to
 * standard output is returned.
 */
module ReplaceByUnk {
  import opened Common
  import opened Text

  const Unk: string := "<unk>"

  /** The token as written: itself when known, "<unk>" otherwise. */
  function Replaced(vocab: set<string>, tokens: seq<string>): (r: seq<string>)
    ensures |r| == |tokens|
    ensures forall i :: 0 <= i < |r| ==> r[i] == (if tokens[i] in vocab then tokens[i] else Unk)
  {
    seq(|tokens|, i requires 0 <= i < |tokens| => if tokens[i] in vocab then tokens[i] else Unk)
  }

  /** What one input line becomes: nothing for a line without tokens, else the
    * replaced tokens separated by single spaces and ended by a newline. */
  function LineOutput(vocab: set<string>, line: string): string
  {
    var tokens := Split(line);
    if tokens == [] then "" else Joined(Replaced(vocab, tokens)) + "\n"
  }

  /** replace_by_unk.py:11-16: the set of stripped vocabulary lines. */
  method ReadVocabulary(lines: seq<string>) returns (vocab: set<string>)
    ensures vocab == set i | 0 <= i < |lines| :: Strip(lines[i])
  {
    vocab := {};
    var i := 0;
    while i < |lines|
      invariant 0 <= i <= |lines|
      invariant vocab == set k | 0 <= k < i :: Strip(lines[k])
    {
      vocab := vocab + {Strip(lines[i])};
      i := i + 1;
    }
  }

  /** The first n tokens as the loop writes them: each followed by a space,
    * the last token of all by a newline. */
  function WrittenTokens(ws: seq<string>, n: nat): string
    requires n <= |ws|
  {
    if n == 0 then "" else WrittenTokens(ws, n - 1) + ws[n - 1] + (if n == |ws| then "\n" else " ")
  }

  lemma {:induction false} WrittenTokensBeforeLast(ws: seq<string>, n: nat)
    requires n < |ws|
    ensures WrittenTokens(ws, n) == Terminated(ws[..n])
  {
    if n > 0 {
      WrittenTokensBeforeLast(ws, n - 1);
      assert ws[..n] == ws[..n - 1] + [ws[n - 1]];
      TerminatedSnoc(ws[..n - 1], ws[n - 1]);
    }
  }

  lemma WrittenTokensAll(ws: seq<string>)
    requires ws != []
    ensures WrittenTokens(ws, |ws|) == Joined(ws) + "\n"
  {
    WrittenTokensBeforeLast(ws, |ws| - 1);
    JoinedIsTerminatedThenLast(ws);
  }

  /** replace_by_unk.py:24-37: each token, then a space, or a newline after the last. */
  method ReplaceLine(vocab: set<string>, line: string) returns (out: string)
    ensures out == LineOutput(vocab, line)
  {
    var tokens := Split(Strip(line));
    StripKeepsTokens(line);
    ghost var written := Replaced(vocab, tokens);
    var numTokens := |tokens|;
    out := "";
    var i := 0;
    while i < numTokens
      invariant 0 <= i <= numTokens
      invariant out == WrittenTokens(written, i)
    {
      var word := if tokens[i] in vocab then tokens[i] else Unk;
      if i == numTokens - 1 {
        out := out + word + "\n";
      } else {
        out := out + word + " ";
      }
      i := i + 1;
    }
    if numTokens > 0 {
      WrittenTokensAll(written);
    }
  }

  /** replace_by_unk.py:9-38: the two arguments are checked, then every line of
    * the data file is rewritten in order. */
  method Run(args: seq<string>, vocabLines: seq<string>, dataLines: seq<string>) returns (r: Outcome<string>)
    ensures r.Fatal? <==> |args| != 3
    ensures r.Done? ==> r.value == Flatten(seq(|dataLines|, i requires 0 <= i < |dataLines| =>
                                      LineOutput(set k | 0 <= k < |vocabLines| :: Strip(vocabLines[k]), dataLines[i])))
  {
    if |args| != 3 {
      return Fatal("usage: replace_by_unk.py <vocab> <train>");
    }
    var vocab := ReadVocabulary(vocabLines);
    ghost var outputs := seq(|dataLines|, i requires 0 <= i < |dataLines| => LineOutput(vocab, dataLines[i]));
    var text := "";
    var i := 0;
    while i < |dataLines|
      invariant 0 <= i <= |dataLines|
      invariant text == Flatten(outputs[..i])
    {
      var out := ReplaceLine(vocab, dataLines[i]);
      FlattenAppend(outputs[..i], [out]);
      FlattenSingle(out);
      assert outputs[..i + 1] == outputs[..i] + [out];
      text := text + out;
      i := i + 1;
    }
    assert outputs[..i] == outputs;
    r := Done(text);
  }

  /** Every written token is "<unk>" or a vocabulary word, one per input token
    * and in order: splitting the written line gives back the replaced tokens. */
  lemma LineOutputTokens(vocab: set<string>, line: string)
    ensures Split(LineOutput(vocab, line)) == Replaced(vocab, Split(line))
    ensures LineOutput(vocab, line) == "" <==> Split(line) == []
  {
    var tokens := Split(line);
    if tokens != [] {
      var written := Replaced(vocab, tokens);
      assert forall k :: 0 <= k < |written| ==> IsWord(written[k]);
      SplitJoined(written);
      SplitJoinedNewline(written);
    } else {
      assert Split("") == [];
    }
  }

}
