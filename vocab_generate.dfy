/**
 * The vocabulary builder (volcab_generate.py): collects every distinct token
 * of the corpus into a set, reports the set's size, then writes one line
 * "word index" per distinct word, numbering them 0, 1, 2, … in the order the
 * set is iterated. That order is unspecified in the source; the model picks
 * an arbitrary element at each step.
 */
module VocabGenerate {
  import opened Common
  import opened Text
  import opened Numerals

  /** The tokens of one line, as a set. */
  function LineWords(line: string): set<string>
  {
    set k | 0 <= k < |Split(line)| :: Split(line)[k]
  }

  /** All tokens of the given lines. */
  function Words(lines: seq<string>): set<string>
  {
    if lines == [] then {} else Words(lines[..|lines| - 1]) + LineWords(lines[|lines| - 1])
  }

  /** A word is in the vocabulary iff it is a token of some line. */
  lemma {:induction false} WordsMembers(lines: seq<string>, w: string)
    ensures w in Words(lines) <==> exists i, k :: 0 <= i < |lines| && 0 <= k < |Split(lines[i])| && Split(lines[i])[k] == w
  {
    if lines != [] {
      var init := lines[..|lines| - 1];
      var last := lines[|lines| - 1];
      WordsMembers(init, w);
      if w in LineWords(last) {
        var k :| 0 <= k < |Split(last)| && Split(last)[k] == w;
        assert 0 <= |lines| - 1 < |lines| && 0 <= k < |Split(lines[|lines| - 1])| && Split(lines[|lines| - 1])[k] == w;
      }
      if w in Words(init) {
        var i, k :| 0 <= i < |init| && 0 <= k < |Split(init[i])| && Split(init[i])[k] == w;
        assert 0 <= i < |lines| && 0 <= k < |Split(lines[i])| && Split(lines[i])[k] == w;
      }
      if exists i, k :: 0 <= i < |lines| && 0 <= k < |Split(lines[i])| && Split(lines[i])[k] == w {
        var i, k :| 0 <= i < |lines| && 0 <= k < |Split(lines[i])| && Split(lines[i])[k] == w;
        if i < |lines| - 1 {
          assert init[i] == lines[i];
        } else {
          assert w in LineWords(last);
        }
      }
    }
  }

  /** Every vocabulary entry is a whitespace-free token. */
  lemma WordsAreWords(lines: seq<string>, w: string)
    requires w in Words(lines)
    ensures IsWord(w)
  {
    WordsMembers(lines, w);
  }

  /** volcab_generate.py:5-11: every token of every line added to the set. */
  method CollectWords(lines: seq<string>) returns (allWord: set<string>)
    ensures allWord == Words(lines)
  {
    allWord := {};
    var i := 0;
    while i < |lines|
      invariant 0 <= i <= |lines|
      invariant allWord == Words(lines[..i])
    {
      var word := Split(lines[i]);
      ghost var before := allWord;
      var k := 0;
      while k < |word|
        invariant 0 <= k <= |word|
        invariant allWord == before + set j | 0 <= j < k :: word[j]
      {
        allWord := allWord + {word[k]};
        k := k + 1;
      }
      assert lines[..i + 1][..i] == lines[..i];
      i := i + 1;
    }
    assert lines[..i] == lines;
  }

  /** One line of the vocabulary file: the word, a space, its index and a newline. */
  function Entry(word: string, index: nat): string
  {
    word + " " + Decimal(index) + "\n"
  }

  /** The vocabulary file for words listed in this order. */
  function VocabText(order: seq<string>): string
  {
    if order == [] then "" else VocabText(order[..|order| - 1]) + Entry(order[|order| - 1], |order| - 1)
  }

  predicate Distinct(order: seq<string>)
  {
    forall i, j :: 0 <= i < j < |order| ==> order[i] != order[j]
  }

  /** volcab_generate.py:14-21: each word of the set once, with a counter that
    * starts at 0 and goes up by one per line. */
  method WriteVocabulary(allWord: set<string>) returns (order: seq<string>, text: string)
    ensures |order| == |allWord| && Distinct(order)
    ensures forall w :: w in allWord <==> w in order
    ensures text == VocabText(order)
  {
    var rest := allWord;
    ghost var done: set<string> := {};
    order := [];
    text := "";
    var count := 0;
    while rest != {}
      invariant count == |order|
      invariant done <= allWord && rest == allWord - done
      invariant Listed(order, done)
      invariant text == VocabText(order)
      decreases |rest|
    {
      var word :| word in rest;
      text := text + Entry(word, count);
      VocabTextSnoc(order, word);
      ListedSnoc(order, done, word);
      order := order + [word];
      rest := rest - {word};
      done := done + {word};
      count := count + 1;
    }
    assert done == allWord;
  }

  lemma VocabTextSnoc(order: seq<string>, word: string)
    ensures VocabText(order + [word]) == VocabText(order) + Entry(word, |order|)
  {
    assert (order + [word])[..|order|] == order;
  }

  /** `order` lists the words of `done`, each once. */
  ghost predicate Listed(order: seq<string>, done: set<string>)
  {
    |order| == |done| && Distinct(order) && forall w :: w in done <==> w in order
  }

  lemma ListedSnoc(order: seq<string>, done: set<string>, word: string)
    requires Listed(order, done) && word !in done
    ensures Listed(order + [word], done + {word})
  {
  }

  /** The script: the printed total and the written file. */
  method Run(lines: seq<string>) returns (total: nat, order: seq<string>, text: string)
    ensures total == |Words(lines)| == |order|
    ensures Distinct(order) && forall w :: w in Words(lines) <==> w in order
    ensures text == VocabText(order)
  {
    var allWord := CollectWords(lines);
    total := |allWord|;
    order, text := WriteVocabulary(allWord);
  }

  /** The file's tokens, read back: each word followed by its index. */
  function Numbered(order: seq<string>): seq<string>
  {
    if order == [] then [] else Numbered(order[..|order| - 1]) + [order[|order| - 1], Decimal(|order| - 1)]
  }

  /** Reading the vocabulary file back as whitespace tokens gives word 0,
    * index 0, word 1, index 1, …: each line pairs a word with its own number. */
  lemma {:induction false} VocabTextTokens(order: seq<string>)
    requires forall i :: 0 <= i < |order| ==> IsWord(order[i])
    ensures Split(VocabText(order)) == Numbered(order)
  {
    if order != [] {
      var init := order[..|order| - 1];
      var n := |order| - 1;
      VocabTextTokens(init);
      var t := VocabText(init);
      assert t == [] || t[|t| - 1] == '\n';
      SplitAfterSpace(t, Entry(order[n], n));
      assert VocabText(order) == t + Entry(order[n], n);
      SplitEntry(order[n], n);
    }
  }

  lemma SplitEntry(w: string, n: nat)
    requires IsWord(w)
    ensures Split(Entry(w, n)) == [w, Decimal(n)]
  {
    assert Entry(w, n) == w + " " + (Decimal(n) + "\n");
    SplitWordThenSpace(w, Decimal(n) + "\n");
    SplitWordThenNewline(Decimal(n));
  }

  lemma SplitWordThenNewline(w: string)
    requires IsWord(w)
    ensures Split(w + "\n") == [w]
  {
    WordLengthAtMost(w + "\n", |w|);
    WordLengthOfPrefix(w + "\n", |w|);
    assert (w + "\n")[..|w|] == w;
    WordLengthOfWord(w);
    assert (w + "\n")[|w|..] == "\n";
    AllSpaceSplitsEmpty("\n");
  }
}
