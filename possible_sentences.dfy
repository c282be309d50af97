/**
 * The candidate-sentence generator (generate_all_possible_sentence.py): for
 * every vocabulary word with a pronunciation that starts with the typed
 * Zhuyin string, one file is written holding the given sentence followed by
 * that word. Files are named 0, 1, 2, … in the order they are written. The
 * vocabulary set and the pronunciation map come in already loaded; the
 * vocabulary is given in the order the set is iterated.
 */
module PossibleSentences {
  import opened Common
  import opened Text
  import opened Numerals

  /** generate_all_possible_sentence.py:60-69: whether any pronunciation
    * starts with the typed string; the loop stops at the first that does. */
  method FirstMatch(pro: seq<string>, typed: string) returns (found: bool)
    ensures found <==> exists k :: 0 <= k < |pro| && StartsWith(pro[k], typed)
  {
    var k := 0;
    while k < |pro|
      invariant 0 <= k <= |pro|
      invariant forall j :: 0 <= j < k ==> !StartsWith(pro[j], typed)
    {
      var p := pro[k];
      if |p| >= |typed| && typed == p[..|typed|] {
        return true;
      }
      k := k + 1;
    }
    return false;
  }

  /** Whether a word gets a file: it has an entry in the map, and one of its
    * pronunciations starts with the typed string. */
  predicate Selects(pron: map<string, seq<string>>, typed: string, word: string)
  {
    word in pron && exists k :: 0 <= k < |pron[word]| && StartsWith(pron[word][k], typed)
  }

  /** The words that get a file, in vocabulary order. */
  function Selected(vocab: seq<string>, pron: map<string, seq<string>>, typed: string): (r: seq<string>)
    ensures |r| <= |vocab|
  {
    if vocab == [] then []
    else
      var word := vocab[|vocab| - 1];
      Selected(vocab[..|vocab| - 1], pron, typed) + (if Selects(pron, typed, word) then [word] else [])
  }

  /** A file's text: the sentence's tokens, then the word, each followed by a space. */
  function FileContent(sentence: string, word: string): string
  {
    Terminated(Split(sentence) + [word])
  }

  /** The written files, as (name, content) pairs in writing order. */
  function Files(sentence: string, words: seq<string>): (r: seq<(string, string)>)
    ensures |r| == |words|
  {
    seq(|words|, k requires 0 <= k < |words| => (Decimal(k), FileContent(sentence, words[k])))
  }

  /** The script (generate_all_possible_sentence.py:21-69): it exits when the
    * save directory is missing or the sentence file does not have exactly one
    * line; otherwise it writes one file per selected word. */
  method Run(saveDirExists: bool, vocab: seq<string>, pron: map<string, seq<string>>,
             sentenceLines: seq<string>, typed: string)
    returns (r: Outcome<seq<(string, string)>>)
    ensures r.Fatal? <==> !saveDirExists || |sentenceLines| != 1
    ensures r.Done? ==> r.value == Files(sentenceLines[0], Selected(vocab, pron, typed))
  {
    if !saveDirExists {
      return Fatal("save dir doesn't exist");
    }
    if |sentenceLines| != 1 {
      return Fatal("there can be only one line in sentence file ><|||");
    }
    var files: seq<(string, string)> := [];
    var count := 0;
    var i := 0;
    while i < |vocab|
      invariant 0 <= i <= |vocab|
      invariant count == |files|
      invariant files == Files(sentenceLines[0], Selected(vocab[..i], pron, typed))
    {
      var word := vocab[i];
      assert vocab[..i + 1][..i] == vocab[..i];
      if word in pron {
        var found := FirstMatch(pron[word], typed);
        if found {
          var content := WriteTerminated(Split(sentenceLines[0]) + [word]);
          ghost var words := Selected(vocab[..i], pron, typed);
          assert Files(sentenceLines[0], words + [word]) == files + [(Decimal(count), content)];
          files := files + [(Decimal(count), content)];
          count := count + 1;
        }
      }
      i := i + 1;
    }
    assert vocab[..i] == vocab;
    r := Done(files);
  }

  /** A word gets a file iff it is in the vocabulary, in the map, and has a
    * pronunciation that starts with the typed string. */
  lemma {:induction false} SelectedMembers(vocab: seq<string>, pron: map<string, seq<string>>, typed: string, w: string)
    ensures w in Selected(vocab, pron, typed) <==> w in vocab && Selects(pron, typed, w)
  {
    if vocab != [] {
      var init := vocab[..|vocab| - 1];
      SelectedMembers(init, pron, typed, w);
      assert vocab == init + [vocab[|vocab| - 1]];
    }
  }

  /** The loop breaks after the first match, so no word gets more files than
    * it has occurrences in the vocabulary: at most one, as the vocabulary is a set. */
  lemma {:induction false} SelectedAtMostOnce(vocab: seq<string>, pron: map<string, seq<string>>, typed: string)
    ensures multiset(Selected(vocab, pron, typed)) <= multiset(vocab)
  {
    if vocab != [] {
      var init := vocab[..|vocab| - 1];
      SelectedAtMostOnce(init, pron, typed);
      assert vocab == init + [vocab[|vocab| - 1]];
    }
  }

  /** Reading a file back as whitespace tokens gives the sentence's tokens and then the word. */
  lemma FileContentTokens(sentence: string, word: string)
    requires IsWord(word)
    ensures Split(FileContent(sentence, word)) == Split(sentence) + [word]
  {
    SplitTerminated(Split(sentence) + [word]);
  }

  /** Files get different names. */
  lemma FileNamesDistinct(sentence: string, words: seq<string>, j: nat, k: nat)
    requires j < k < |words|
    ensures Files(sentence, words)[j].0 != Files(sentence, words)[k].0
  {
    if Decimal(j) == Decimal(k) {
      DecimalInjective(j, k);
    }
  }
}
