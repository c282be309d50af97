/**
 * The vocabulary the trainer consults (vocabulary.h is not part of this
 * model): a word-to-index table with an unknown-word fallback, the
 * sentence-boundary index, and the partition of the word indices into
 * classes used by the class-factored output layer.
 *
 * The class layout the output layer relies on is stated as `WellFormed`:
 * words of singleton classes (the shortlist) take the indices below
 * `shortlistSize`; the words of every larger class take consecutive
 * indices after the shortlist, class by class, starting at
 * `shortlistSize + WordOffset(classSizes, c)`.
 */
module Vocab {

  datatype Vocabulary = Vocabulary(
    index: map<string, nat>,
    unkIndex: nat,
    hasUnk: bool,
    sbIndex: nat,
    classOf: seq<nat>,
    classSizes: seq<nat>,
    shortlistSize: nat,
    maxClassSize: nat)
  {
    function Size(): nat { |classOf| }

    function NumClasses(): nat { |classSizes| }

    function GetIndex(w: string): nat
    {
      if w in index then index[w] else unkIndex
    }

    predicate IsSentenceBoundary(w: string)
    {
      GetIndex(w) == sbIndex
    }

    function GetClass(w: nat): nat
      requires w < Size()
    {
      classOf[w]
    }

    function GetClassSize(c: nat): nat
      requires c < NumClasses()
    {
      classSizes[c]
    }

    ghost predicate WellFormed()
    {
      && sbIndex < Size() && unkIndex < Size()
      && (forall w :: w in index ==> index[w] < Size())
      && (forall c :: 0 <= c < |classSizes| ==> 1 <= classSizes[c] <= maxClassSize)
      && (forall w :: 0 <= w < |classOf| ==> classOf[w] < |classSizes|)
      && (forall w :: 0 <= w < |classOf| ==> InClassBlock(w))
      && shortlistSize + WordOffset(classSizes, |classSizes|) == Size()
    }

    /** Where word `w` sits: below the shortlist size for a singleton class,
      * otherwise inside its class's block of word rows. */
    ghost predicate InClassBlock(w: nat)
      requires w < |classOf| && classOf[w] < |classSizes|
    {
      var c := classOf[w];
      if classSizes[c] == 1 then w < shortlistSize
      else shortlistSize + WordOffset(classSizes, c) <= w < shortlistSize + WordOffset(classSizes, c) + classSizes[c]
    }
  }

  /** Number of word rows a class of this size needs: none for a shortlist (singleton) class. */
  function RowsOf(size: nat): nat
  {
    if size != 1 then size else 0
  }

  /** First word row of class `c`: the rows of all earlier non-singleton classes. */
  function WordOffset(sizes: seq<nat>, c: nat): nat
    requires c <= |sizes|
  {
    if c == 0 then 0 else WordOffset(sizes, c - 1) + RowsOf(sizes[c - 1])
  }

  lemma {:induction false} WordOffsetMonotone(sizes: seq<nat>, c: nat, d: nat)
    requires c <= d <= |sizes|
    ensures WordOffset(sizes, c) <= WordOffset(sizes, d)
    ensures c < d ==> WordOffset(sizes, c) + RowsOf(sizes[c]) <= WordOffset(sizes, d)
    decreases d - c
  {
    if c < d {
      WordOffsetMonotone(sizes, c + 1, d);
    }
  }

  /** Every word of a non-singleton class has a within-class slot in [0, class size),
    * hence below the largest class size, and its class's rows lie inside the
    * V - shortlist word rows. */
  lemma WordSlotInRange(v: Vocabulary, w: nat)
    requires v.WellFormed() && w < v.Size()
    requires v.classSizes[v.classOf[w]] != 1
    ensures 0 <= w - WordOffset(v.classSizes, v.classOf[w]) - v.shortlistSize < v.classSizes[v.classOf[w]]
    ensures w - WordOffset(v.classSizes, v.classOf[w]) - v.shortlistSize < v.maxClassSize
    ensures WordOffset(v.classSizes, v.classOf[w]) + v.classSizes[v.classOf[w]] <= v.Size() - v.shortlistSize
  {
    var c := v.classOf[w];
    assert v.InClassBlock(w);
    WordOffsetMonotone(v.classSizes, c, |v.classSizes|);
  }
}
