/**
 * The interactive input-method shell (input.py, class `input_shell`). In
 * state 0 it waits for typed keys and asks the generator for candidate words;
 * in state 1 it waits for the number of a candidate, which is appended to the
 * sentence. The generator `possible_generate` is a parameter; printed
 * messages are left out.
 */
module InputShell {
  import opened Common
  import opened Text
  import opened Numerals

  /** The shell's four fields. */
  datatype ShellState = ShellState(sentence: string, possibleWord: seq<string>, possibleWordNum: int, state: int)

  /** `reset` (input.py:31-36). */
  const Initial: ShellState := ShellState("", [], 0, 0)

  /** The count of options matches the stored options, and the state is 0 or 1. */
  predicate Consistent(s: ShellState)
  {
    s.possibleWordNum == |s.possibleWord| && (s.state == 0 || s.state == 1)
  }

  /** What one input line that reaches `default` does (input.py:48-96),
    * `generate` standing for `possible_generate`. */
  function Step(s: ShellState, line: string, generate: (string, string) -> (bool, seq<string>)): (r: ShellState)
    requires Consistent(s)
    ensures Consistent(r)
  {
    var allWord := Split(line);
    if |allWord| != 1 then s
    else
      var word := allWord[0];
      if s.state == 0 then
        var (correct, allPossibleWord) := generate(s.sentence, word);
        if !correct || |allPossibleWord| == 0 then s
        else s.(state := 1, possibleWord := allPossibleWord, possibleWordNum := |allPossibleWord|)
      else
        match ParseInt(word)
        case None => s
        case Some(chooseNum) =>
          if chooseNum > s.possibleWordNum || chooseNum < 0 then s
          else if chooseNum == 0 then s.(state := 0)
          else s.(sentence := s.sentence + s.possibleWord[chooseNum - 1], state := 0)
  }

  class Shell {
    var sentence: string
    var possibleWord: seq<string>
    var possibleWordNum: int
    var state: int

    function Snapshot(): ShellState
      reads this
    {
      ShellState(sentence, possibleWord, possibleWordNum, state)
    }

    predicate Valid()
      reads this
    {
      Consistent(Snapshot())
    }

    /** `__init__` (input.py:26-29). */
    constructor ()
      ensures Valid() && Snapshot() == Initial
    {
      sentence := "";
      possibleWord := [];
      possibleWordNum := 0;
      state := 0;
    }

    /** `reset` and `do_reset` (input.py:31-36, 42-46). */
    method Reset()
      modifies this
      ensures Valid() && Snapshot() == Initial
    {
      sentence := "";
      possibleWord := [];
      possibleWordNum := 0;
      state := 0;
    }

    /** `default` (input.py:48-96). */
    method Default(line: string, generate: (string, string) -> (bool, seq<string>))
      requires Valid()
      modifies this
      ensures Valid()
      ensures Snapshot() == Step(old(Snapshot()), line, generate)
    {
      var allWord := Split(line);
      if |allWord| != 1 {
        return;
      }
      var word := allWord[0];
      if state == 0 {
        var (correct, allPossibleWord) := generate(sentence, word);
        var num := |allPossibleWord|;
        if !correct {
          return;
        } else if num == 0 {
          return;
        } else {
          state := 1;
          possibleWord := allPossibleWord;
          possibleWordNum := num;
          return;
        }
      } else {
        var parsed := ParseInt(word);
        if parsed.None? {
          return;
        }
        var chooseNum := parsed.value;
        if chooseNum > possibleWordNum {
        } else if chooseNum < 0 {
        } else if chooseNum == 0 {
          state := 0;
          return;
        } else {
          sentence := sentence + possibleWord[chooseNum - 1];
          state := 0;
          return;
        }
      }
    }
  }

  /** Input that is not exactly one token changes nothing. */
  lemma BadInputIsIgnored(s: ShellState, line: string, generate: (string, string) -> (bool, seq<string>))
    requires Consistent(s) && |Split(line)| != 1
    ensures Step(s, line, generate) == s
  {
  }

  /** In state 0 the typed keys go to the generator: a rejected or empty answer
    * changes nothing, any other answer is stored and the shell waits for a choice. */
  lemma TypingAsksGenerator(s: ShellState, word: string, generate: (string, string) -> (bool, seq<string>))
    requires Consistent(s) && s.state == 0 && IsWord(word)
    ensures var (correct, options) := generate(s.sentence, word);
            Step(s, word, generate) ==
              if !correct || options == [] then s
              else ShellState(s.sentence, options, |options|, 1)
  {
    SplitWord(word);
  }

  /** Typing the number k of a candidate, 1 <= k <= count, appends that
    * candidate to the sentence and returns to state 0. */
  lemma ChoosingAppends(s: ShellState, k: nat, generate: (string, string) -> (bool, seq<string>))
    requires Consistent(s) && s.state == 1 && 1 <= k <= s.possibleWordNum
    ensures Step(s, Decimal(k), generate) ==
              ShellState(s.sentence + s.possibleWord[k - 1], s.possibleWord, s.possibleWordNum, 0)
  {
    SplitWord(Decimal(k));
    ParseDecimal(k);
  }

  /** Typing 0 returns to state 0 with the sentence unchanged; a number above
    * the count, or a negative one, changes nothing. */
  lemma OtherNumbers(s: ShellState, k: nat, generate: (string, string) -> (bool, seq<string>))
    requires Consistent(s) && s.state == 1
    ensures Step(s, Decimal(0), generate) == s.(state := 0)
    ensures k > s.possibleWordNum ==> Step(s, Decimal(k), generate) == s
    ensures k > 0 ==> Step(s, "-" + Decimal(k), generate) == s
  {
    SplitWord(Decimal(0));
    ParseDecimal(0);
    SplitWord(Decimal(k));
    ParseDecimal(k);
    assert IsWord("-" + Decimal(k));
    SplitWord("-" + Decimal(k));
  }

  /** The sentence changes only by a choice in state 1, which appends one of
    * the stored candidates; everything written so far stays. */
  lemma SentenceOnlyGrowsByChoice(s: ShellState, line: string, generate: (string, string) -> (bool, seq<string>))
    requires Consistent(s)
    ensures var r := Step(s, line, generate);
            r.sentence == s.sentence ||
            (s.state == 1 && r.state == 0 && exists k :: 0 <= k < |s.possibleWord| && r.sentence == s.sentence + s.possibleWord[k])
  {
    var r := Step(s, line, generate);
    if r.sentence != s.sentence {
      var k := ParseInt(Split(line)[0]).value;
      assert r.sentence == s.sentence + s.possibleWord[k - 1];
    }
  }
}
