/**
 * The bookkeeping of the HTK lattice rescorer (htklatticerescorer.h): lattice
 * nodes and links, the hypotheses of the search, and the append-only traceback
 * arena whose entries point back at their predecessors. `Hash` identifies a
 * hypothesis' recombination history by the last `dpOrder` words on its
 * traceback path, skipping links that carry no language-model score.
 * `boost::hash_combine` is a parameter of the model.
 */
module Lattice {
  import opened Common
  import opened Sorting

  datatype Node = Node(id: int, time: int, lookAheadScore: real)

  datatype Link = Link(from: int, to: int, word: int, pronunciation: int, lmScore: real, amScore: real)

  /** A hypothesis carries the recurrent network state it was scored with. */
  datatype Hypothesis = Hypothesis(state: seq<seq<real>>, tracebackId: nat, score: real)

  datatype Trace = Trace(linkId: int, historyWord: int, predecessorTracebackId: int, score: real)

  /** `Node::operator<` (htklatticerescorer.h:77-79): earlier time first. */
  predicate NodeBefore(a: Node, b: Node)
  {
    a.time < b.time
  }

  /** `Hypothesis::operator<` (htklatticerescorer.h:92-94): lower score first. */
  predicate HypothesisBefore(a: Hypothesis, b: Hypothesis)
  {
    a.score < b.score
  }

  /** `Hypothesis()` (htklatticerescorer.h:88-91). */
  function NewHypothesis(state: seq<seq<real>>): (h: Hypothesis)
    ensures h.tracebackId == 0 && h.score == 0.0 && h.state == state
  {
    Hypothesis(state, 0, 0.0)
  }

  /** Both comparisons are strict weak orders, as `std::sort` and
    * `std::priority_queue` need: irreflexive, transitive, and incomparability
    * (equal time, equal score) is transitive too; their non-strict forms are
    * total preorders. */
  lemma {:induction false} OrdersAreStrictWeak()
    ensures forall a: Node :: !NodeBefore(a, a)
    ensures forall a: Node, b: Node, c: Node :: NodeBefore(a, b) && NodeBefore(b, c) ==> NodeBefore(a, c)
    ensures forall a: Node, b: Node :: !NodeBefore(a, b) && !NodeBefore(b, a) <==> a.time == b.time
    ensures forall a: Hypothesis :: !HypothesisBefore(a, a)
    ensures forall a: Hypothesis, b: Hypothesis, c: Hypothesis ::
              HypothesisBefore(a, b) && HypothesisBefore(b, c) ==> HypothesisBefore(a, c)
    ensures forall a: Hypothesis, b: Hypothesis :: !HypothesisBefore(a, b) && !HypothesisBefore(b, a) <==> a.score == b.score
    ensures TotalPreorder((a: Node, b: Node) => !NodeBefore(b, a))
    ensures TotalPreorder((a: Hypothesis, b: Hypothesis) => !HypothesisBefore(b, a))
  {
  }

  /** Every trace that follows a link points back at an earlier trace, and its
    * link exists; traces with a negative link id start a path. */
  ghost predicate Walkable(traceback: seq<Trace>, links: seq<Link>)
  {
    forall i :: 0 <= i < |traceback| && traceback[i].linkId >= 0 ==>
      traceback[i].linkId < |links| && 0 <= traceback[i].predecessorTracebackId < i
  }

  /** A trace whose link has language-model score 0 adds no history word. */
  predicate Silent(traceback: seq<Trace>, links: seq<Link>, id: nat)
    requires id < |traceback|
  {
    0 <= traceback[id].linkId < |links| && links[traceback[id].linkId].lmScore == 0.0
  }

  /** The inner walk of `Hash` (htklatticerescorer.h:178-180): back over silent
    * traces to the first one that starts a path or carries a real word. */
  function SkipSilent(traceback: seq<Trace>, links: seq<Link>, id: nat): (r: nat)
    requires Walkable(traceback, links) && id < |traceback|
    ensures r <= id && !Silent(traceback, links, r)
    ensures !Silent(traceback, links, id) ==> r == id
    decreases id
  {
    if Silent(traceback, links, id) then SkipSilent(traceback, links, traceback[id].predecessorTracebackId) else id
  }

  /** The history words `Hash` feeds into the hash, starting at trace `id` and
    * taking `count` of them; None when the walk leaves the arena. */
  function HistoryWords(traceback: seq<Trace>, links: seq<Link>, id: int, count: nat): (r: Option<seq<int>>)
    requires Walkable(traceback, links)
    ensures r.Some? ==> |r.value| == count
    decreases count
  {
    if count == 0 then Some([])
    else if !(0 <= id < |traceback|) then None
    else
      var s := SkipSilent(traceback, links, id);
      match HistoryWords(traceback, links, traceback[s].predecessorTracebackId, count - 1)
      case None => None
      case Some(rest) => Some([traceback[s].historyWord] + rest)
  }

  /** `words` in front of the walk's remaining words, if it has them. */
  function Prepend(words: seq<int>, rest: Option<seq<int>>): Option<seq<int>>
  {
    match rest
    case None => None
    case Some(ws) => Some(words + ws)
  }

  /** Folding `combine` over the words, first word first. */
  function Combined(combine: (nat, int) -> nat, hash: nat, words: seq<int>): nat
    decreases |words|
  {
    if words == [] then hash else Combined(combine, combine(hash, words[0]), words[1..])
  }

  lemma {:induction false} CombinedSnoc(combine: (nat, int) -> nat, hash: nat, words: seq<int>, w: int)
    ensures Combined(combine, hash, words + [w]) == combine(Combined(combine, hash, words), w)
    decreases |words|
  {
    if words == [] {
      assert [w][1..] == [];
    } else {
      assert (words + [w])[1..] == words[1..] + [w];
      CombinedSnoc(combine, combine(hash, words[0]), words[1..], w);
    }
  }

  /** A silent trace is transparent to the hash: a hypothesis that reached it
    * recombines with one still at its predecessor. */
  lemma {:induction false} SilentIsTransparent(traceback: seq<Trace>, links: seq<Link>, id: nat, count: nat)
    requires Walkable(traceback, links) && id < |traceback| && Silent(traceback, links, id)
    ensures HistoryWords(traceback, links, id, count)
         == HistoryWords(traceback, links, traceback[id].predecessorTracebackId, count)
  {
    if count > 0 {
      assert SkipSilent(traceback, links, id) == SkipSilent(traceback, links, traceback[id].predecessorTracebackId);
    }
  }

  /** Each word hashed is the history word of a trace that is not silent. */
  lemma {:induction false} HistoryWordsAreSpoken(traceback: seq<Trace>, links: seq<Link>, id: int, count: nat, k: nat)
    requires Walkable(traceback, links)
    requires HistoryWords(traceback, links, id, count).Some? && k < count
    ensures exists t :: 0 <= t < |traceback| && !Silent(traceback, links, t)
                     && HistoryWords(traceback, links, id, count).value[k] == traceback[t].historyWord
    decreases count
  {
    var s := SkipSilent(traceback, links, id);
    if k > 0 {
      HistoryWordsAreSpoken(traceback, links, traceback[s].predecessorTracebackId, count - 1, k - 1);
    } else {
      assert HistoryWords(traceback, links, id, count).value[0] == traceback[s].historyWord;
    }
  }

  class HtkLatticeRescorer {
    var nodes: seq<Node>
    var links: seq<Link>
    var traceback: seq<Trace>
    const dpOrder: int

    constructor (dpOrder: int)
      ensures nodes == [] && links == [] && traceback == [] && this.dpOrder == dpOrder
    {
      nodes, links, traceback := [], [], [];
      this.dpOrder := dpOrder;
    }

    /** `AddTraceback` (htklatticerescorer.h:128-137): appends one trace and
      * returns its index, the old size. */
    method AddTraceback(linkId: int, historyWord: int, predecessorTracebackId: int, score: real) returns (id: int)
      modifies this
      ensures traceback == old(traceback) + [Trace(linkId, historyWord, predecessorTracebackId, score)]
      ensures id == |old(traceback)|
    {
      traceback := traceback + [Trace(linkId, historyWord, predecessorTracebackId, score)];
      id := |traceback| - 1;
    }

    /** `GetToNodeID` (htklatticerescorer.h:147-152): node 0 for a trace that
      * starts a path, else the end node of its link. */
    function GetToNodeID(tracebackId: nat): (r: int)
      reads this
      requires tracebackId < |traceback|
      requires traceback[tracebackId].linkId < |links|
      ensures traceback[tracebackId].linkId < 0 ==> r == 0
      ensures traceback[tracebackId].linkId >= 0 ==> r == links[traceback[tracebackId].linkId].to
    {
      var linkId := traceback[tracebackId].linkId;
      if linkId < 0 then 0 else links[linkId].to
    }

    /** `GetTime` (htklatticerescorer.h:143-145): the time of that node. */
    function GetTime(tracebackId: nat): (r: int)
      reads this
      requires tracebackId < |traceback|
      requires traceback[tracebackId].linkId < |links|
      requires 0 <= GetToNodeID(tracebackId) < |nodes|
      ensures traceback[tracebackId].linkId < 0 ==> r == nodes[0].time
      ensures traceback[tracebackId].linkId >= 0 ==> r == nodes[links[traceback[tracebackId].linkId].to].time
    {
      nodes[GetToNodeID(tracebackId)].time
    }

    /** `Hash` (htklatticerescorer.h:174-186): `dpOrder` rounds, each skipping
      * silent traces, combining the history word and stepping to the
      * predecessor. None when the walk reads outside the arena. */
    method Hash(tracebackId: int, combine: (nat, int) -> nat) returns (r: Option<nat>)
      requires Walkable(traceback, links)
      ensures var words := HistoryWords(traceback, links, tracebackId, if dpOrder < 0 then 0 else dpOrder);
              r == if words.None? then None else Some(Combined(combine, 0, words.value))
    {
      var tb, ls := traceback, links;
      var count: nat := if dpOrder < 0 then 0 else dpOrder;
      var hash: nat := 0;
      var id := tracebackId;
      ghost var words: seq<int> := [];
      var i := 0;
      assert Prepend([], HistoryWords(tb, ls, id, count)) == HistoryWords(tb, ls, id, count) by {
        if HistoryWords(tb, ls, id, count).Some? {
          assert [] + HistoryWords(tb, ls, id, count).value == HistoryWords(tb, ls, id, count).value;
        }
      }
      while i < dpOrder
        invariant 0 <= i <= count && |words| == i
        invariant hash == Combined(combine, 0, words)
        invariant HistoryWords(tb, ls, tracebackId, count) == Prepend(words, HistoryWords(tb, ls, id, count - i))
      {
        if !(0 <= id < |tb|) {
          return None;
        }
        var s := SkipSilentWalk(tb, ls, id);
        var word, predecessor := tb[s].historyWord, tb[s].predecessorTracebackId;
        ghost var rest := HistoryWords(tb, ls, predecessor, count - i - 1);
        assert HistoryWords(tb, ls, id, count - i) == Prepend([word], rest);
        if rest.Some? {
          assert words + ([word] + rest.value) == (words + [word]) + rest.value;
        }
        CombinedSnoc(combine, 0, words, word);
        hash := combine(hash, word);
        words := words + [word];
        id := predecessor;
        i := i + 1;
      }
      assert words + [] == words;
      r := Some(hash);
    }
  }

  /** The inner loop of `Hash` (htklatticerescorer.h:178-180). */
  method SkipSilentWalk(traceback: seq<Trace>, links: seq<Link>, id: nat) returns (s: nat)
    requires Walkable(traceback, links) && id < |traceback|
    ensures s == SkipSilent(traceback, links, id)
  {
    s := id;
    while traceback[s].linkId >= 0 && links[traceback[s].linkId].lmScore == 0.0
      invariant s < |traceback| && SkipSilent(traceback, links, s) == SkipSilent(traceback, links, id)
      decreases s
    {
      s := traceback[s].predecessorTracebackId;
    }
  }

  /** Appending a trace that points back at an existing one keeps the arena walkable. */
  lemma AddKeepsWalkable(traceback: seq<Trace>, links: seq<Link>, t: Trace)
    requires Walkable(traceback, links)
    requires t.linkId >= 0 ==> t.linkId < |links| && 0 <= t.predecessorTracebackId < |traceback|
    ensures Walkable(traceback + [t], links)
  {
  }
}
