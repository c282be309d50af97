/**
 * Candidate generation for the input method (word_generate.py,
 * `possible_generate`). The typed keys a..h each stand for a few Zhuyin
 * symbols; every combination of one symbol per key is matched as a prefix
 * against the pronunciations of the vocabulary words, the matching words are
 * written to a file as candidate sentences, the language model scores that
 * file, and the words come back ranked by their scores.
 *
 * Strings are modelled as sequences of characters: the source works on UTF-8
 * bytes, and as UTF-8 is a prefix code, a byte-prefix match of whole symbols
 * is a character-prefix match. The vocabulary set, the pronunciation map and
 * the parsed scores are given; the vocabulary is listed in the set's
 * iteration order.
 */
module WordGenerate {
  import opened Common
  import opened Text
  import opened Sorting

  /** word_generate.py:6-14: the Zhuyin symbols behind each key. */
  const KeyPair: KeyTable := map[
    'a' := ["ㄅ", "ㄆ", "ㄇ", "ㄈ"],
    'b' := ["ㄉ", "ㄊ", "ㄋ", "ㄌ"],
    'c' := ["ㄍ", "ㄎ", "ㄏ", "ㄐ", "ㄑ", "ㄒ", "ㄓ", "ㄔ"],
    'd' := ["ㄕ", "ㄖ", "ㄗ", "ㄘ", "ㄙ", "ㄧ"],
    'e' := ["ㄨ", "ㄩ", "ㄚ"],
    'f' := ["ㄛ", "ㄜ", "ㄝ", "ㄞ"],
    'g' := ["ㄟ", "ㄠ", "ㄡ", "ㄢ"],
    'h' := ["ㄣ", "ㄤ", "ㄥ", "ㄦ"]]

  /** A key table: each key stands for one or more symbols of one character each. */
  type KeyTable = map<char, seq<string>>

  predicate WellFormed(table: KeyTable)
  {
    forall c :: c in table ==> table[c] != [] && forall j :: 0 <= j < |table[c]| ==> |table[c][j]| == 1
  }

  lemma KeyPairIsWellFormed()
    ensures WellFormed(KeyPair)
  {
  }

  /** word_generate.py:39-41: every typed character is a key. */
  predicate ValidKeys(table: KeyTable, word: string)
  {
    forall i :: 0 <= i < |word| ==> word[i] in table
  }

  // ---- Combinations (word_generate.py:43-54) ----

  /** `x` followed by each of `ys`, in order. */
  function Row(x: string, ys: seq<string>): (r: seq<string>)
    ensures |r| == |ys|
  {
    if ys == [] then [] else Row(x, ys[..|ys| - 1]) + [x + ys[|ys| - 1]]
  }

  /** Every `x` of `xs` followed by every `y` of `ys`, `xs` varying slowest. */
  function Cross(xs: seq<string>, ys: seq<string>): (r: seq<string>)
    ensures |r| == |xs| * |ys|
  {
    if xs == [] then [] else Cross(xs[..|xs| - 1], ys) + Row(xs[|xs| - 1], ys)
  }

  /** The combinations for the typed keys: none for no key, the first key's
    * symbols for one, and the cross product with each further key's symbols. */
  function Combos(table: KeyTable, word: string): seq<string>
    requires ValidKeys(table, word)
  {
    if word == [] then []
    else
      var prev := Combos(table, word[..|word| - 1]);
      var keys := table[word[|word| - 1]];
      if prev == [] then keys else Cross(prev, keys)
  }

  lemma {:induction false} RowAt(x: string, ys: seq<string>, j: nat)
    requires j < |ys|
    ensures Row(x, ys)[j] == x + ys[j]
  {
    if j < |ys| - 1 {
      RowAt(x, ys[..|ys| - 1], j);
    }
  }

  /** The cross product is ordered: entry i * |ys| + j pairs xs[i] with ys[j]. */
  lemma {:induction false} CrossAt(xs: seq<string>, ys: seq<string>, i: nat, j: nat) returns (k: nat)
    requires i < |xs| && j < |ys|
    ensures k == i * |ys| + j && k < |Cross(xs, ys)|
    ensures Cross(xs, ys)[k] == xs[i] + ys[j]
  {
    var n := |xs| - 1;
    MulMonotone(i + 1, |xs|, |ys|);
    MulSucc(i, |ys|);
    k := i * |ys| + j;
    if i < n {
      k := CrossAt(xs[..n], ys, i, j);
    } else {
      RowAt(xs[n], ys, j);
    }
  }

  /** A string is in the cross product iff it is some `x` of `xs` followed by some `y` of `ys`. */
  lemma {:induction false} CrossMembers(xs: seq<string>, ys: seq<string>, z: string)
    ensures z in Cross(xs, ys) <==> exists i, j :: 0 <= i < |xs| && 0 <= j < |ys| && z == xs[i] + ys[j]
  {
    var cr := Cross(xs, ys);
    if z in cr {
      var k :| 0 <= k < |cr| && cr[k] == z;
      var i, j := CrossIndex(xs, ys, k);
      assert 0 <= i < |xs| && 0 <= j < |ys| && z == xs[i] + ys[j];
    } else {
      forall i, j | 0 <= i < |xs| && 0 <= j < |ys|
        ensures z != xs[i] + ys[j]
      {
        var k := CrossAt(xs, ys, i, j);
        assert cr[k] in cr;
      }
    }
  }

  /** Which pair entry k of the cross product comes from. */
  lemma CrossIndex(xs: seq<string>, ys: seq<string>, k: nat) returns (i: nat, j: nat)
    requires k < |Cross(xs, ys)|
    ensures i < |xs| && j < |ys| && Cross(xs, ys)[k] == xs[i] + ys[j]
  {
    var m := |ys|;
    PositiveFactor(|xs|, m);
    i, j := k / m, k % m;
    assert i < |xs| by {
      DivBelow(k, m, |xs|);
    }
    DivModParts(k, m);
    var k' := CrossAt(xs, ys, i, j);
    assert k' == k;
  }

  lemma PositiveFactor(a: nat, b: nat)
    requires a * b > 0
    ensures b > 0
  {
  }

  /** The number of combinations is the product of the keys' symbol counts. */
  lemma {:induction false} CombosCount(table: KeyTable, word: string)
    requires WellFormed(table) && ValidKeys(table, word) && word != []
    ensures |Combos(table, word)| == Product(seq(|word|, i requires 0 <= i < |word| => |table[word[i]]|))
  {
    var n := |word| - 1;
    var counts := seq(|word|, i requires 0 <= i < |word| => |table[word[i]]|);
    var init := word[..n];
    if n == 0 {
      assert counts == [] + [counts[0]];
      ProductSnoc([], counts[0]);
    } else {
      CombosCount(table, init);
      CombosNonEmpty(table, init);
      var initCounts := seq(n, i requires 0 <= i < n => |table[init[i]]|);
      assert counts == initCounts + [|table[word[n]]|];
      ProductSnoc(initCounts, |table[word[n]]|);
    }
  }

  lemma {:induction false} CombosNonEmpty(table: KeyTable, word: string)
    requires WellFormed(table) && ValidKeys(table, word) && word != []
    ensures Combos(table, word) != []
  {
    var n := |word| - 1;
    if n > 0 {
      CombosNonEmpty(table, word[..n]);
      var prev := Combos(table, word[..n]);
      var k := CrossAt(prev, table[word[n]], 0, 0);
    }
  }

  /** The symbols a pronunciation starts with spell the typed keys, one symbol per key. */
  predicate Spells(table: KeyTable, p: string, word: string)
    requires ValidKeys(table, word)
  {
    |p| >= |word| && forall i :: 0 <= i < |word| ==> [p[i]] in table[word[i]]
  }

  /** A string is a combination iff it is one symbol of each typed key, in order. */
  lemma CombosMembers(table: KeyTable, word: string, c: string)
    requires WellFormed(table) && ValidKeys(table, word) && word != []
    ensures c in Combos(table, word) <==> |c| == |word| && Spells(table, c, word)
  {
    if c in Combos(table, word) {
      CombosSpell(table, word, c);
    }
    if |c| == |word| && Spells(table, c, word) {
      SpellingIsCombo(table, word, c);
    }
  }

  lemma {:induction false} CombosSpell(table: KeyTable, word: string, c: string)
    requires WellFormed(table) && ValidKeys(table, word) && word != [] && c in Combos(table, word)
    ensures |c| == |word| && Spells(table, c, word)
  {
    var n := |word| - 1;
    var keys := table[word[n]];
    if n > 0 {
      var init := word[..n];
      var prev := Combos(table, init);
      CombosNonEmpty(table, init);
      CrossMembers(prev, keys, c);
      var i, j :| 0 <= i < |prev| && 0 <= j < |keys| && c == prev[i] + keys[j];
      CombosSpell(table, init, prev[i]);
      SpellsSnoc(table, word, prev[i], keys[j]);
    } else {
      assert word[..0] == [];
      assert c in keys;
      assert |c| == 1 && [c[0]] == c;
    }
  }

  /** A spelling of all keys but the last, followed by a symbol of the last key. */
  lemma SpellsSnoc(table: KeyTable, word: string, x: string, y: string)
    requires WellFormed(table) && ValidKeys(table, word) && word != []
    requires |x| == |word| - 1 && Spells(table, x, word[..|word| - 1]) && y in table[word[|word| - 1]]
    ensures |x + y| == |word| && Spells(table, x + y, word)
  {
    var n := |word| - 1;
    var c := x + y;
    assert |y| == 1;
    forall k | 0 <= k < |word|
      ensures [c[k]] in table[word[k]]
    {
      if k < n {
        assert c[k] == x[k];
        assert [x[k]] in table[word[..n][k]];
      } else {
        assert [c[k]] == y;
      }
    }
  }

  lemma {:induction false} SpellingIsCombo(table: KeyTable, word: string, c: string)
    requires WellFormed(table) && ValidKeys(table, word) && word != [] && |c| == |word| && Spells(table, c, word)
    ensures c in Combos(table, word)
  {
    var n := |word| - 1;
    var keys := table[word[n]];
    if n == 0 {
      assert c == [c[0]];
    } else {
      var init := word[..n];
      var prev := Combos(table, init);
      CombosNonEmpty(table, init);
      var x, y := c[..n], [c[n]];
      SpellsInit(table, word, c);
      SpellingIsCombo(table, init, x);
      var i :| 0 <= i < |prev| && prev[i] == x;
      var j :| 0 <= j < |keys| && keys[j] == y;
      assert c == prev[i] + keys[j];
      CrossMembers(prev, keys, c);
    }
  }

  /** A spelling of all keys, cut before the last symbol, spells all keys but the last. */
  lemma SpellsInit(table: KeyTable, word: string, c: string)
    requires ValidKeys(table, word) && |word| > 1 && |c| == |word| && Spells(table, c, word)
    ensures Spells(table, c[..|word| - 1], word[..|word| - 1])
  {
    var n := |word| - 1;
    forall k | 0 <= k < n
      ensures [c[..n][k]] in table[word[..n][k]]
    {
      assert c[..n][k] == c[k];
      assert word[..n][k] == word[k];
    }
  }

  /** word_generate.py:45-54: the combination list built key by key. */
  method Combinations(table: KeyTable, word: string) returns (all: seq<string>)
    requires ValidKeys(table, word)
    ensures all == Combos(table, word)
  {
    all := [];
    var i := 0;
    while i < |word|
      invariant 0 <= i <= |word|
      invariant all == Combos(table, word[..i])
    {
      assert word[..i + 1][..i] == word[..i];
      var chuyinTemp := table[word[i]];
      if |all| == 0 {
        all := chuyinTemp;
      } else {
        all := CrossProduct(all, chuyinTemp);
      }
      i := i + 1;
    }
    assert word[..i] == word;
  }

  /** word_generate.py:50-54: every combination extended by every symbol. */
  method CrossProduct(xs: seq<string>, ys: seq<string>) returns (temp: seq<string>)
    ensures temp == Cross(xs, ys)
  {
    temp := [];
    var a := 0;
    while a < |xs|
      invariant 0 <= a <= |xs|
      invariant temp == Cross(xs[..a], ys)
    {
      ghost var before := temp;
      var b := 0;
      while b < |ys|
        invariant 0 <= b <= |ys|
        invariant temp == before + Row(xs[a], ys[..b])
      {
        assert ys[..b + 1][..b] == ys[..b];
        temp := temp + [xs[a] + ys[b]];
        b := b + 1;
      }
      assert ys[..b] == ys;
      assert xs[..a + 1][..a] == xs[..a];
      a := a + 1;
    }
    assert xs[..a] == xs;
  }

  // ---- Matching (word_generate.py:56-68) ----

  /** The word once for each of its pronunciations that starts with `combo`. */
  function PronMatches(combo: string, word: string, pros: seq<string>): (r: seq<string>)
    ensures |r| <= |pros|
  {
    if pros == [] then []
    else PronMatches(combo, word, pros[..|pros| - 1]) + (if StartsWith(pros[|pros| - 1], combo) then [word] else [])
  }

  /** The matches of `combo` over the vocabulary, in vocabulary order; words
    * without a map entry are skipped. */
  function VocabMatches(combo: string, vocab: seq<string>, pron: map<string, seq<string>>): seq<string>
  {
    if vocab == [] then []
    else
      var w := vocab[|vocab| - 1];
      VocabMatches(combo, vocab[..|vocab| - 1], pron) + (if w in pron then PronMatches(combo, w, pron[w]) else [])
  }

  /** All matches, combination by combination. */
  function Candidates(combos: seq<string>, vocab: seq<string>, pron: map<string, seq<string>>): seq<string>
  {
    if combos == [] then []
    else Candidates(combos[..|combos| - 1], vocab, pron) + VocabMatches(combos[|combos| - 1], vocab, pron)
  }

  /** word_generate.py:65-68: the innermost loop. */
  method MatchPronunciations(combo: string, word: string, pros: seq<string>) returns (found: seq<string>)
    ensures found == PronMatches(combo, word, pros)
  {
    found := [];
    var k := 0;
    while k < |pros|
      invariant 0 <= k <= |pros|
      invariant found == PronMatches(combo, word, pros[..k])
    {
      assert pros[..k + 1][..k] == pros[..k];
      var chuyin := pros[k];
      if |combo| <= |chuyin| && chuyin[..|combo|] == combo {
        found := found + [word];
      }
      k := k + 1;
    }
    assert pros[..k] == pros;
  }

  /** word_generate.py:59-68: the vocabulary loop for one combination. */
  method MatchVocabulary(combo: string, vocab: seq<string>, pron: map<string, seq<string>>) returns (found: seq<string>)
    ensures found == VocabMatches(combo, vocab, pron)
  {
    found := [];
    var v := 0;
    while v < |vocab|
      invariant 0 <= v <= |vocab|
      invariant found == VocabMatches(combo, vocab[..v], pron)
    {
      assert vocab[..v + 1][..v] == vocab[..v];
      if vocab[v] in pron {
        var more := MatchPronunciations(combo, vocab[v], pron[vocab[v]]);
        found := found + more;
      }
      v := v + 1;
    }
    assert vocab[..v] == vocab;
  }

  /** word_generate.py:57-68: the matches for all combinations. */
  method FindCandidates(combos: seq<string>, vocab: seq<string>, pron: map<string, seq<string>>) returns (possibleWord: seq<string>)
    ensures possibleWord == Candidates(combos, vocab, pron)
  {
    possibleWord := [];
    var c := 0;
    while c < |combos|
      invariant 0 <= c <= |combos|
      invariant possibleWord == Candidates(combos[..c], vocab, pron)
    {
      assert combos[..c + 1][..c] == combos[..c];
      var more := MatchVocabulary(combos[c], vocab, pron);
      possibleWord := possibleWord + more;
      c := c + 1;
    }
    assert combos[..c] == combos;
  }

  lemma {:induction false} PronMatchesMembers(combo: string, word: string, pros: seq<string>, w: string)
    ensures w in PronMatches(combo, word, pros) <==>
              w == word && exists k :: 0 <= k < |pros| && StartsWith(pros[k], combo)
  {
    if pros != [] {
      var init := pros[..|pros| - 1];
      PronMatchesMembers(combo, word, init, w);
      if exists k :: 0 <= k < |pros| && StartsWith(pros[k], combo) {
        var k :| 0 <= k < |pros| && StartsWith(pros[k], combo);
        if k < |pros| - 1 {
          assert init[k] == pros[k];
        }
      }
      if exists k :: 0 <= k < |init| && StartsWith(init[k], combo) {
        var k :| 0 <= k < |init| && StartsWith(init[k], combo);
        assert pros[k] == init[k];
      }
    }
  }

  /** A word has a pronunciation that starts with `combo`. */
  predicate Sounds(pron: map<string, seq<string>>, w: string, combo: string)
  {
    w in pron && exists k :: 0 <= k < |pron[w]| && StartsWith(pron[w][k], combo)
  }

  lemma {:induction false} VocabMatchesMembers(combo: string, vocab: seq<string>, pron: map<string, seq<string>>, w: string)
    ensures w in VocabMatches(combo, vocab, pron) <==> w in vocab && Sounds(pron, w, combo)
  {
    if vocab != [] {
      var init := vocab[..|vocab| - 1];
      var last := vocab[|vocab| - 1];
      VocabMatchesMembers(combo, init, pron, w);
      if last in pron {
        PronMatchesMembers(combo, last, pron[last], w);
      }
      assert vocab == init + [last];
    }
  }

  /** The candidates are exactly the vocabulary words with a map entry and a
    * pronunciation that starts with one of the combinations. */
  lemma {:induction false} CandidatesMembers(combos: seq<string>, vocab: seq<string>, pron: map<string, seq<string>>, w: string)
    ensures w in Candidates(combos, vocab, pron) <==>
              w in vocab && exists c :: c in combos && Sounds(pron, w, c)
  {
    if combos != [] {
      var init := combos[..|combos| - 1];
      var last := combos[|combos| - 1];
      CandidatesMembers(init, vocab, pron, w);
      VocabMatchesMembers(last, vocab, pron, w);
      assert combos == init + [last];
    }
  }

  /** For the typed keys: a word is a candidate iff it is in the vocabulary and
    * one of its pronunciations starts with one symbol of each key, in order. */
  lemma CandidatesSpellKeys(table: KeyTable, word: string, vocab: seq<string>, pron: map<string, seq<string>>, w: string)
    requires WellFormed(table) && ValidKeys(table, word) && word != []
    ensures w in Candidates(Combos(table, word), vocab, pron) <==>
              w in vocab && w in pron && exists k :: 0 <= k < |pron[w]| && Spells(table, pron[w][k], word)
  {
    var combos := Combos(table, word);
    CandidatesMembers(combos, vocab, pron, w);
    if w in Candidates(combos, vocab, pron) {
      var c :| c in combos && Sounds(pron, w, c);
      var k :| 0 <= k < |pron[w]| && StartsWith(pron[w][k], c);
      var p := pron[w][k];
      CombosMembers(table, word, c);
      assert Spells(table, p, word) by {
        forall i | 0 <= i < |word|
          ensures [p[i]] in table[word[i]]
        {
          assert p[i] == p[..|c|][i] == c[i];
        }
      }
    }
    if w in vocab && w in pron && exists k :: 0 <= k < |pron[w]| && Spells(table, pron[w][k], word) {
      var k :| 0 <= k < |pron[w]| && Spells(table, pron[w][k], word);
      var p := pron[w][k];
      var c := p[..|word|];
      CombosMembers(table, word, c);
      assert Spells(table, c, word) by {
        forall i | 0 <= i < |word|
          ensures [c[i]] in table[word[i]]
        {
          assert c[i] == p[i];
        }
      }
      assert StartsWith(p, c);
      assert Sounds(pron, w, c);
    }
  }

  // ---- Candidate sentences (word_generate.py:73-89) ----

  /** The text the language model scores for a candidate: "o" stands in for an
    * empty sentence so far. */
  function Sentence(pre: string, word: string): string
  {
    if |pre| == 0 then "o" + pre + word else pre + word
  }

  /** One line of the candidate file: the characters joined by single spaces. */
  function SentenceLine(pre: string, word: string): string
  {
    Joined(Chars(Sentence(pre, word))) + "\n"
  }

  /** The candidate file: one line per candidate, in candidate order. */
  function SentenceFile(pre: string, words: seq<string>): string
  {
    if words == [] then "" else SentenceFile(pre, words[..|words| - 1]) + SentenceLine(pre, words[|words| - 1])
  }

  /** word_generate.py:75-89: both branches write one line per candidate. */
  method WriteSentences(pre: string, possibleWord: seq<string>) returns (text: string)
    ensures text == SentenceFile(pre, possibleWord)
  {
    text := "";
    var i := 0;
    while i < |possibleWord|
      invariant 0 <= i <= |possibleWord|
      invariant text == SentenceFile(pre, possibleWord[..i])
    {
      assert possibleWord[..i + 1][..i] == possibleWord[..i];
      var sentence := if |pre| == 0 then "o" + pre + possibleWord[i] else pre + possibleWord[i];
      text := text + Joined(Chars(sentence)) + "\n";
      i := i + 1;
    }
    assert possibleWord[..i] == possibleWord;
  }

  /** The language model reads a candidate line back as one token per
    * character, so each character is scored as a word of its own. */
  lemma SentenceLineTokens(pre: string, word: string)
    requires forall i :: 0 <= i < |Sentence(pre, word)| ==> !IsSpace(Sentence(pre, word)[i])
    ensures Split(SentenceLine(pre, word)) == Chars(Sentence(pre, word))
  {
    var cs := Chars(Sentence(pre, word));
    assert forall k :: 0 <= k < |cs| ==> IsWord(cs[k]);
    SplitJoined(cs);
    SplitJoinedNewline(cs);
  }

  // ---- Ranking (word_generate.py:125-133) ----

  /** The score of candidate i; outside the list it is irrelevant. */
  function ScoreOf(scores: seq<real>, i: nat): real
  {
    if i < |scores| then scores[i] else 0.0
  }

  /** Higher score first; equal scores keep their original order, as Python's
    * stable `sorted(..., reverse=True)` does. */
  function RankOrder(scores: seq<real>): (nat, nat) -> bool
  {
    (i: nat, j: nat) => ScoreOf(scores, i) > ScoreOf(scores, j) || (ScoreOf(scores, i) == ScoreOf(scores, j) && i <= j)
  }

  lemma RankOrderIsTotal(scores: seq<real>)
    ensures TotalPreorder(RankOrder(scores))
  {
  }

  function Indices(n: nat): (r: seq<nat>)
    ensures |r| == n
  {
    if n == 0 then [] else Indices(n - 1) + [n - 1]
  }

  /** `ppl_argsort`: the candidate positions in ranking order, each once. */
  function Ranking(scores: seq<real>): (r: seq<nat>)
    ensures |r| == |scores|
    ensures multiset(r) == multiset(Indices(|scores|))
    ensures forall a :: 0 <= a < |r| ==> r[a] < |scores|
  {
    RankOrderIsTotal(scores);
    var r := Sort(Indices(|scores|), RankOrder(scores));
    IndexPermutationInRange(r, |scores|);
    r
  }

  lemma {:induction false} IndicesAt(n: nat, i: nat)
    requires i < n
    ensures Indices(n)[i] == i
  {
    if i < n - 1 {
      IndicesAt(n - 1, i);
    }
  }

  /** `[possible_word[i] for i in sorted_idx]`; a position outside the list
    * (which the ranking never holds) picks the empty string. */
  function Pick(words: seq<string>, idx: seq<nat>): (r: seq<string>)
    ensures |r| == |idx|
  {
    if idx == [] then [] else [if idx[0] < |words| then words[idx[0]] else ""] + Pick(words, idx[1..])
  }

  lemma {:induction false} PickAt(words: seq<string>, idx: seq<nat>, k: nat)
    requires k < |idx| && idx[k] < |words|
    ensures Pick(words, idx)[k] == words[idx[k]]
  {
    if k > 0 {
      PickAt(words, idx[1..], k - 1);
    }
  }

  lemma {:induction false} IndicesCount(n: nat, x: nat)
    ensures multiset(Indices(n))[x] == (if x < n then 1 else 0)
  {
    if n > 0 {
      var prev := Indices(n - 1);
      IndicesCount(n - 1, x);
      assert Indices(n) == prev + [n - 1];
      assert multiset(Indices(n)) == multiset(prev) + multiset([n - 1]);
    }
  }

  lemma IndexPermutationInRange(r: seq<nat>, n: nat)
    requires multiset(r) == multiset(Indices(n))
    ensures forall a :: 0 <= a < |r| ==> r[a] < n
  {
    forall a | 0 <= a < |r|
      ensures r[a] < n
    {
      assert r[a] in multiset(r);
      IndicesCount(n, r[a]);
    }
  }

  lemma TwiceCounted<T>(s: seq<T>, a: nat, b: nat)
    requires a < b < |s| && s[a] == s[b]
    ensures multiset(s)[s[a]] >= 2
  {
    assert s == s[..b] + [s[b]] + s[b + 1..];
    assert s[a] in multiset(s[..b]);
  }

  /** No position is ranked twice. */
  lemma RankingIsDistinct(scores: seq<real>)
    ensures forall a, b :: 0 <= a < b < |scores| ==> Ranking(scores)[a] != Ranking(scores)[b]
  {
    var r := Ranking(scores);
    forall a, b | 0 <= a < b < |scores|
      ensures r[a] != r[b]
    {
      if r[a] == r[b] {
        TwiceCounted(r, a, b);
        IndicesCount(|scores|, r[a]);
      }
    }
  }

  /** Scores never increase along the ranking, and equal scores keep their
    * original order. */
  lemma RankingIsOrdered(scores: seq<real>)
    ensures forall a, b :: 0 <= a < b < |scores| ==> scores[Ranking(scores)[a]] >= scores[Ranking(scores)[b]]
    ensures forall a, b :: 0 <= a < b < |scores| && scores[Ranking(scores)[a]] == scores[Ranking(scores)[b]] ==>
              Ranking(scores)[a] < Ranking(scores)[b]
  {
    var r := Ranking(scores);
    var le := RankOrder(scores);
    RankOrderIsTotal(scores);
    assert SortedBy(r, le);
    RankingIsDistinct(scores);
    forall a, b | 0 <= a < b < |scores|
      ensures scores[r[a]] >= scores[r[b]]
      ensures scores[r[a]] == scores[r[b]] ==> r[a] < r[b]
    {
      assert le(r[a], r[b]);
    }
  }

  lemma {:induction false} PickAppend(words: seq<string>, p: seq<nat>, q: seq<nat>)
    ensures Pick(words, p + q) == Pick(words, p) + Pick(words, q)
  {
    if p != [] {
      assert (p + q)[1..] == p[1..] + q;
      PickAppend(words, p[1..], q);
    } else {
      assert p + q == q;
    }
  }

  lemma MultisetCancel<T>(x: T, a: multiset<T>, b: multiset<T>)
    requires multiset{x} + a == multiset{x} + b
    ensures a == b
  {
    assert forall y :: a[y] == (multiset{x} + a)[y] - multiset{x}[y];
  }

  /** Picking by two orderings of the same positions gives the same words, reordered. */
  lemma {:induction false} PickPermutation(words: seq<string>, p: seq<nat>, q: seq<nat>)
    requires multiset(p) == multiset(q)
    ensures multiset(Pick(words, p)) == multiset(Pick(words, q))
    decreases |p|
  {
    if p != [] {
      var x := p[0];
      assert x in multiset(q);
      var k :| 0 <= k < |q| && q[k] == x;
      var rest := q[..k] + q[k + 1..];
      assert p == [x] + p[1..];
      PickRemove(words, q, k);
      MultisetCancel(x, multiset(p[1..]), multiset(rest));
      PickPermutation(words, p[1..], rest);
      PickAppend(words, [x], p[1..]);
    }
  }

  /** Picking by q is picking q[k], then by q without position k. */
  lemma PickRemove(words: seq<string>, q: seq<nat>, k: nat)
    requires k < |q|
    ensures multiset(q) == multiset{q[k]} + multiset(q[..k] + q[k + 1..])
    ensures multiset(Pick(words, q)) == multiset(Pick(words, [q[k]])) + multiset(Pick(words, q[..k] + q[k + 1..]))
  {
    var front, back := q[..k], q[k + 1..];
    assert q == front + [q[k]] + back;
    PickAppend(words, front, back);
    PickAppend(words, front + [q[k]], back);
    PickAppend(words, front, [q[k]]);
  }

  /** The candidates in ranking order. */
  function Ranked(words: seq<string>, scores: seq<real>): (r: seq<string>)
    requires |words| == |scores|
    ensures |r| == |words|
  {
    Pick(words, Ranking(scores))
  }

  /** The ranked list is a permutation of the candidates, and the candidate at
    * position Ranking(scores)[k] is at place k. */
  lemma RankedIsPermutation(words: seq<string>, scores: seq<real>)
    requires |words| == |scores|
    ensures multiset(Ranked(words, scores)) == multiset(words)
    ensures forall k :: 0 <= k < |words| ==> Ranked(words, scores)[k] == words[Ranking(scores)[k]]
  {
    var n := |words|;
    var r := Ranking(scores);
    PickPermutation(words, r, Indices(n));
    forall k | 0 <= k < n
      ensures Pick(words, Indices(n))[k] == words[k] && Pick(words, r)[k] == words[r[k]]
    {
      IndicesAt(n, k);
      PickAt(words, Indices(n), k);
      PickAt(words, r, k);
    }
    assert Pick(words, Indices(n)) == words;
  }

  // ---- possible_generate (word_generate.py:36-133) ----

  /** `possible_generate(pre_sentence, word)`: (False, []) for a key outside
    * the table, (True, []) when no word matches, and otherwise the candidate
    * file is written and the candidates come back ranked by `scores`, the
    * values parsed from the language model's output for that file. The
    * `assert` that there is one score per candidate is the Fatal outcome. */
  method PossibleGenerate(pre: string, word: string, vocab: seq<string>, pron: map<string, seq<string>>,
                          scores: seq<real>)
    returns (r: Outcome<(bool, seq<string>)>, sentenceFile: string)
    ensures !ValidKeys(KeyPair, word) ==> r == Done((false, [])) && sentenceFile == ""
    ensures ValidKeys(KeyPair, word) && Candidates(Combos(KeyPair, word), vocab, pron) == [] ==>
              r == Done((true, [])) && sentenceFile == ""
    ensures ValidKeys(KeyPair, word) && Candidates(Combos(KeyPair, word), vocab, pron) != [] ==>
              && sentenceFile == SentenceFile(pre, Candidates(Combos(KeyPair, word), vocab, pron))
              && (r.Fatal? <==> |scores| != |Candidates(Combos(KeyPair, word), vocab, pron)|)
              && (r.Done? ==> r.value == (true, Ranked(Candidates(Combos(KeyPair, word), vocab, pron), scores)))
  {
    var i := 0;
    while i < |word|
      invariant 0 <= i <= |word|
      invariant forall j :: 0 <= j < i ==> word[j] in KeyPair
    {
      if word[i] !in KeyPair {
        return Done((false, [])), "";
      }
      i := i + 1;
    }
    var allPossibleCombination := Combinations(KeyPair, word);
    var possibleWord := FindCandidates(allPossibleCombination, vocab, pron);
    if |possibleWord| == 0 {
      return Done((true, [])), "";
    }
    sentenceFile := WriteSentences(pre, possibleWord);
    if |possibleWord| != |scores| {
      return Fatal("assert len(possible_word) == len(all_ppl)"), sentenceFile;
    }
    var sortedIdx := Ranking(scores);
    var sortedPossibleWord := Pick(possibleWord, sortedIdx);
    r := Done((true, sortedPossibleWord));
  }
}
