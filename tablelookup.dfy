/**
 * The embedding layer (rwthlm/tablelookup.cc, rwthlm/tablelookup.h): each
 * batch entry keeps a history of its last `order` words, and the layer's
 * output for a time step is the concatenation of the embedding rows of
 * those words (plus a bias, a recurrency and an activation).
 *
 * Only the first layer of a net is a TableLookup, so its `AddDelta` (a
 * no-op) is never called and is not modelled. The embedding weights have
 * no momentum: gradients are written into them directly.
 */
module TableLookups {
  import opened Common
  import opened Functions
  import opened Params
  import opened Recurrencies
  import opened Linears

  // ---------------------------------------------------------------------
  // The history window
  // ---------------------------------------------------------------------

  /** One history after word x arrives: x in front, the oldest word dropped. */
  function Shift(h: seq<int>, x: int): (r: seq<int>)
    requires |h| >= 1
    ensures |r| == |h| && r[0] == x && r[1..] == h[..|h| - 1]
  {
    [x] + h[..|h| - 1]
  }

  ghost predicate Uniform(histories: seq<seq<int>>, order: nat)
  {
    forall i :: 0 <= i < |histories| ==> |histories[i]| == order
  }

  /** What `UpdateHistories` (tablelookup.cc:127-138) makes of the
    * histories: the first call creates one history per slice entry, filled
    * with `order` copies of its word; every later call shifts the word of
    * entry i into history i and leaves the histories past the slice alone. */
  ghost function Updated(histories: seq<seq<int>>, words: seq<int>, order: nat): seq<seq<int>>
    requires order >= 1 && Uniform(histories, order)
    requires histories != [] ==> |words| <= |histories|
  {
    if histories == [] then
      seq(|words|, i requires 0 <= i < |words| => seq(order, _ => words[i]))
    else
      seq(|histories|, i requires 0 <= i < |histories| =>
        if i < |words| then Shift(histories[i], words[i]) else histories[i])
  }

  lemma UpdatedShape(histories: seq<seq<int>>, words: seq<int>, order: nat)
    requires order >= 1 && Uniform(histories, order)
    requires histories != [] ==> |words| <= |histories|
    ensures Uniform(Updated(histories, words, order), order)
    ensures |Updated(histories, words, order)| == if histories == [] then |words| else |histories|
  {
  }

  /** The history of one batch entry after it has received the words `ws`
    * in order, one per `UpdateHistories` call. */
  ghost function HistoryAfter(ws: seq<int>, order: nat): seq<int>
    requires order >= 1 && |ws| >= 1
    decreases |ws|
  {
    if |ws| == 1 then seq(order, _ => ws[0])
    else Shift(HistoryAfter(ws[..|ws| - 1], order), ws[|ws| - 1])
  }

  /** The window property: position j of the history holds the word j steps
    * back, or the very first word when fewer than j+1 words have arrived. */
  lemma {:induction false} HistoryWindow(ws: seq<int>, order: nat, j: nat)
    requires order >= 1 && |ws| >= 1 && j < order
    ensures |HistoryAfter(ws, order)| == order
    ensures HistoryAfter(ws, order)[j] == if j < |ws| then ws[|ws| - 1 - j] else ws[0]
    decreases |ws|
  {
    if |ws| > 1 {
      var init := ws[..|ws| - 1];
      HistoryWindow(init, order, 0);
      if j > 0 {
        HistoryWindow(init, order, j - 1);
        assert HistoryAfter(ws, order)[j] == HistoryAfter(init, order)[j - 1];
      }
    }
  }

  lemma {:induction false} FlattenUniformLength(h: seq<seq<int>>, order: nat)
    requires Uniform(h, order)
    ensures |Flatten(h)| == |h| * order
  {
    if h != [] {
      FlattenUniformLength(h[1..], order);
      MulSucc(|h| - 1, order);
    }
  }

  /** Position i of the flattened histories is word i % order of history
    * i / order. */
  lemma {:induction false} FlattenUniformIndex(h: seq<seq<int>>, order: nat, i: nat)
    requires order >= 1 && Uniform(h, order) && i < |h| * order
    ensures i / order < |h| && i % order < order
    ensures |Flatten(h)| == |h| * order
    ensures Flatten(h)[i] == h[i / order][i % order]
  {
    FlattenUniformLength(h, order);
    DivBelow(i, order, |h|);
    assert Flatten(h) == h[0] + Flatten(h[1..]);
    if i < order {
      DivIsUnique(i, order, 0);
    } else {
      MulSucc(|h| - 1, order);
      FlattenUniformIndex(h[1..], order, i - order);
      DivModShift(i, order);
    }
  }

  // ---------------------------------------------------------------------
  // Packing the histories into a state vector
  // ---------------------------------------------------------------------

  /** `s` splits into whole chunks of `order`: the condition under which the
    * `SetState` loop never reads past the end of its entry. */
  ghost predicate Chunked(s: seq<int>, order: nat)
    requires order >= 1
    decreases |s|
  {
    |s| == 0 || (|s| >= order && Chunked(s[order..], order))
  }

  /** The histories `SetState` rebuilds from a flat entry. */
  ghost function Regroup(s: seq<int>, order: nat): seq<seq<int>>
    requires order >= 1 && Chunked(s, order)
    decreases |s|
  {
    if |s| == 0 then [] else [s[..order]] + Regroup(s[order..], order)
  }

  /** Extracting and setting the state restores the histories: flattening
    * uniform histories gives a chunked vector that regroups into them. */
  lemma {:induction false} RegroupFlatten(histories: seq<seq<int>>, order: nat)
    requires order >= 1 && Uniform(histories, order)
    ensures Chunked(Flatten(histories), order)
    ensures Regroup(Flatten(histories), order) == histories
  {
    if histories != [] {
      var f := Flatten(histories);
      assert f == histories[0] + Flatten(histories[1..]);
      assert f[..order] == histories[0] && f[order..] == Flatten(histories[1..]);
      RegroupFlatten(histories[1..], order);
      assert histories == [histories[0]] + histories[1..];
    }
  }

  /** ... and, the other way round, regrouping a chunked vector gives
    * uniform histories that flatten back into it. */
  lemma {:induction false} FlattenRegroup(s: seq<int>, order: nat)
    requires order >= 1 && Chunked(s, order)
    ensures Uniform(Regroup(s, order), order)
    ensures Flatten(Regroup(s, order)) == s
    decreases |s|
  {
    if |s| > 0 {
      FlattenRegroup(s[order..], order);
      var r := Regroup(s, order);
      assert r[1..] == Regroup(s[order..], order);
      assert s == s[..order] + s[order..];
    }
  }

  /** The `SetState` loop (tablelookup.cc:185-186): one history per chunk of
    * `order` words, in order. */
  method RegroupInOrder(words: seq<int>, order: nat) returns (hs: seq<seq<int>>)
    requires order >= 1 && Chunked(words, order)
    ensures hs == Regroup(words, order) && Uniform(hs, order)
  {
    hs := [];
    var rest := words;
    while rest != []
      invariant Chunked(rest, order) && Uniform(hs, order)
      invariant hs + Regroup(rest, order) == Regroup(words, order)
      decreases |rest|
    {
      var chunk := rest[..order];
      assert Regroup(rest, order) == [chunk] + Regroup(rest[order..], order);
      assert hs + Regroup(rest, order) == (hs + [chunk]) + Regroup(rest[order..], order);
      hs := hs + [chunk];
      rest := rest[order..];
    }
    assert hs + Regroup(rest, order) == hs;
  }

  // ---------------------------------------------------------------------
  // The layer
  // ---------------------------------------------------------------------

  class TableLookup {
    const dims: Dims
    const order: nat
    const isFeedforward: bool
    const activation: Activation
    const b: array<real>
    const delta: array<real>
    const recurrency: Option<Recurrency>
    var bt: nat
    var deltat: nat
    var weights: seq<real>
    var bias: Option<seq<real>>
    var histories: seq<seq<int>>

    /** `word_dimension_` (tablelookup.cc:32). */
    function WordDimension(): nat
      requires order >= 1
    {
      dims.output / order
    }

    function Repr(): set<object>
    {
      {this, b, delta} + RecurrencyObjects(recurrency)
    }

    ghost predicate Valid()
      reads this, Repr()
    {
      && order >= 1 && dims.output == WordDimension() * order && dims.length >= 1
      && b.Length == dims.BufferSize() && delta.Length == dims.BufferSize() && b != delta
      && |weights| == WordDimension() * dims.input
      && (bias.Some? ==> |bias.value| == WordDimension())
      && Uniform(histories, order)
      && (recurrency.Some? ==>
            recurrency.value.Valid() && recurrency.value.output == dims.output
            && recurrency.value.offset == dims.Offset())
    }

    function Position(): Cursor
      reads this
    {
      Cursor(bt, deltat)
    }

    /** The constructor (tablelookup.cc:17-49). An order of 0 would divide by
      * zero, and an output dimension that is not a multiple of the order
      * fails the constructor's assertion; the parser rules both out first.
      * The histories start empty; cursors and weights, left unset by the
      * source, start at base and zero. */
    constructor(dims: Dims, order: nat, isRecurrent: bool, useBias: bool,
                isFeedforward: bool, activation: Activation)
      requires order >= 1 && dims.output % order == 0 && dims.length >= 1
      ensures Valid() && fresh(Repr())
      ensures this.dims == dims && this.order == order && this.isFeedforward == isFeedforward
      ensures this.activation == activation
      ensures recurrency.Some? == isRecurrent && bias.Some? == useBias
      ensures histories == [] && bt == 0 && deltat == 0
    {
      this.dims := dims;
      this.order := order;
      this.isFeedforward := isFeedforward;
      this.activation := activation;
      b := new real[dims.BufferSize()];
      delta := new real[dims.BufferSize()];
      weights := Zeros(dims.output / order * dims.input);
      bias := if useBias then Some(Zeros(dims.output / order)) else None;
      if isRecurrent {
        var r := new Recurrency(dims);
        recurrency := Some(r);
      } else {
        recurrency := None;
      }
      histories := [];
      bt, deltat := 0, 0;
    }

    /** `ResetHistories` (tablelookup.h:54-56). */
    method ResetHistories()
      requires Valid()
      modifies this
      ensures Valid() && histories == [] && Position() == old(Position())
      ensures weights == old(weights) && bias == old(bias)
    {
      histories := [];
    }

    /** `UpdateHistories` (tablelookup.cc:127-138). The slice may not have
      * more entries than there are histories once they exist. */
    method UpdateHistories(words: seq<int>)
      requires Valid() && (histories != [] ==> |words| <= |histories|)
      modifies this
      ensures Valid() && histories == Updated(old(histories), words, order)
      ensures Position() == old(Position()) && weights == old(weights) && bias == old(bias)
    {
      UpdatedShape(histories, words, order);
      ghost var target := Updated(histories, words, order);
      var hs := histories;
      if hs == [] {
        var i := 0;
        while i < |words|
          invariant i <= |words| && hs == target[..i]
        {
          hs := hs + [seq(order, _ => words[i])];
          i := i + 1;
        }
        assert hs == target;
      } else {
        var i := 0;
        while i < |words|
          invariant i <= |words| && |hs| == |histories|
          invariant forall k :: 0 <= k < i ==> hs[k] == target[k]
          invariant forall k :: i <= k < |hs| ==> hs[k] == histories[k]
        {
          hs := hs[i := Shift(hs[i], words[i])];
          i := i + 1;
        }
        assert hs == target;
      }
      histories := hs;
    }

    /** The embedding rows read for a slice of `size` entries: block i uses
      * word i % order of history i / order (tablelookup.cc:59-66, 102-109),
      * so the rows are the first `size` histories one after the other. */
    method Lookups(size: nat) returns (rows: seq<int>)
      requires Valid() && size <= |histories|
      ensures rows == Flatten(histories[..size]) && |rows| == size * order
    {
      ghost var all := Flatten(histories[..size]);
      FlattenUniformLength(histories[..size], order);
      rows := [];
      var i := 0;
      while i < size * order
        invariant i <= size * order && rows == all[..i]
      {
        FlattenUniformIndex(histories[..size], order, i);
        rows := rows + [histories[i / order][i % order]];
        i := i + 1;
      }
      assert rows == all;
    }

    /** `Evaluate` (tablelookup.cc:51-72): updates the histories before it
      * reads them, looks up one embedding row per (entry, history position),
      * returns the slot at `b_t_` and moves `b_t_` one slot on. */
    method Evaluate(words: seq<int>) returns (result: nat, rows: seq<int>, recurrentTerm: bool)
      requires Valid() && (histories != [] ==> |words| <= |histories|)
      modifies this
      ensures Valid() && histories == Updated(old(histories), words, order)
      ensures rows == Flatten(histories[..|words|]) && |rows| == |words| * order
      ensures result == old(bt) && Position() == Forward(old(Position()))
      ensures recurrentTerm <==> recurrency.Some? && old(bt) != 0 && dims.Offset() != 0
      ensures weights == old(weights) && bias == old(bias)
    {
      result := bt;
      UpdatedShape(histories, words, order);
      UpdateHistories(words);
      rows := Lookups(|words|);
      recurrentTerm := false;
      if recurrency.Some? {
        var _, uses := recurrency.value.Evaluate(bt);
        recurrentTerm := uses;
      }
      bt := result + 1;
    }

    /** `ComputeDelta` (tablelookup.cc:74-82): `b_t_` moves back; since no
      * layer lies below to call `AddDelta`, the layer moves its own
      * `delta_t_` on at the end. */
    method ComputeDelta() returns (recurrentTerm: bool)
      requires Valid() && bt >= 1
      modifies this
      ensures Valid() && Position() == Feed(Backward(old(Position())))
      ensures recurrentTerm <==> recurrency.Some? && old(deltat) != 0 && dims.Offset() != 0
      ensures weights == old(weights) && bias == old(bias) && histories == old(histories)
    {
      bt := bt - 1;
      recurrentTerm := false;
      if recurrency.Some? {
        recurrentTerm := recurrency.value.ComputeDelta(deltat);
      }
      deltat := deltat + 1;
    }

    /** `UpdateWeights` (tablelookup.cc:88-115): `delta_t_` moves back; in
      * recurrent training the histories move on again; the gradient is
      * added straight into the bias and the embedding weights (the rows
      * read are returned), the recurrency accumulates its own, and the slot
      * at `b_t_` is returned before `b_t_` moves on. */
    method UpdateWeights(words: seq<int>, gradient: Gradient) returns (result: nat, rows: seq<int>)
      requires Valid() && deltat >= 1
      requires !isFeedforward && histories != [] ==> |words| <= |histories|
      requires isFeedforward ==> |words| <= |histories|
      modifies Repr()
      ensures Valid() && Position() == Update(old(Position()))
      ensures histories == if isFeedforward then old(histories) else Updated(old(histories), words, order)
      ensures rows == Flatten(histories[..|words|]) && |rows| == |words| * order
      ensures result == old(bt)
      ensures weights == AddPadded(old(weights), gradient("weights"))
      ensures bias == if old(bias).Some? then Some(AddPadded(old(bias).value, gradient("bias"))) else None
      ensures recurrency.Some? ==>
        recurrency.value.recurrent ==
          if old(bt) != 0 && dims.Offset() != 0
          then old(recurrency.value.recurrent).Accumulate(gradient("recurrent"))
          else old(recurrency.value.recurrent)
    {
      deltat := deltat - 1;
      if !isFeedforward {
        UpdatedShape(histories, words, order);
        UpdateHistories(words);
      }
      if bias.Some? {
        bias := Some(AddPadded(bias.value, gradient("bias")));
      }
      rows := Lookups(|words|);
      weights := AddPadded(weights, gradient("weights"));
      if recurrency.Some? {
        var _ := recurrency.value.UpdateWeights(bt, gradient("recurrent"));
      }
      result := bt;
      bt := bt + 1;
    }

    /** `UpdateMomentumWeights` (tablelookup.cc:117-120): only the recurrency
      * has momentum. */
    method UpdateMomentumWeights(momentum: real)
      requires Valid()
      modifies Repr()
      ensures Valid() && Position() == old(Position())
      ensures weights == old(weights) && bias == old(bias) && histories == old(histories)
      ensures recurrency.Some? ==> recurrency.value.recurrent == old(recurrency.value.recurrent).Apply(momentum)
    {
      if recurrency.Some? {
        recurrency.value.UpdateMomentumWeights(momentum);
      }
    }

    /** `ResetMomentum` (tablelookup.cc:122-125). */
    method ResetMomentum()
      requires Valid()
      modifies Repr()
      ensures Valid() && Position() == old(Position())
      ensures weights == old(weights) && bias == old(bias) && histories == old(histories)
      ensures recurrency.Some? ==> recurrency.value.recurrent == old(recurrency.value.recurrent).ResetMomentum()
    {
      if recurrency.Some? {
        recurrency.value.ResetMomentum();
      }
    }

    /** `Reset` (tablelookup.cc:157-169), the same as the Linear layer's. */
    method Reset(dependent: bool) returns (r: Outcome<()>)
      requires Valid()
      requires dependent && recurrency.Some? && dims.batch == 1 ==> dims.length >= 2
      modifies this, b, delta
      ensures Valid()
      ensures r.IsFatal() <==> dependent && recurrency.Some? && dims.batch != 1
      ensures r.IsFatal() ==> unchanged(this, b, delta)
      ensures !r.IsFatal() ==>
        var carry := dependent && recurrency.Some?;
        && Position() == Cursor(if carry then 1 else 0, 0)
        && b[..] == ResetActivations(old(b[..]), dims.Offset(), carry)
        && delta[..] == Zeros(delta.Length)
      ensures weights == old(weights) && bias == old(bias) && histories == old(histories)
    {
      var carry := dependent && recurrency.Some?;
      if carry && dims.batch != 1 {
        return Fatal("TableLookup::Reset: a dependent reset needs batch size 1");
      }
      SlotsFit(dims);
      ResetBuffer(b, dims.Offset(), carry);
      bt := if carry then 1 else 0;
      deltat := 0;
      ZeroRange(delta, 0, delta.Length);
      assert delta[..] == Zeros(delta.Length);
      r := Done(());
    }

    /** The recurrent part of the state: slot 0 when recurrent. */
    ghost function Hidden(): seq<real>
      requires Valid()
      reads Repr()
    {
      SlotsFit(dims);
      if recurrency.Some? then b[..dims.Offset()] else []
    }

    /** `ExtractState` (tablelookup.cc:171-178): the recurrent slot when
      * recurrent, then every history in turn. Word indices are stored as
      * reals. */
    method ExtractState() returns (hidden: seq<real>, words: seq<int>)
      requires Valid()
      ensures hidden == Hidden() && words == Flatten(histories)
    {
      SlotsFit(dims);
      hidden := if recurrency.Some? then b[..dims.Offset()] else [];
      words := [];
      var i := 0;
      while i < |histories|
        invariant i <= |histories| && words == Flatten(histories[..i])
      {
        FlattenAppend(histories[..i], [histories[i]]);
        FlattenSingle(histories[i]);
        assert histories[..i + 1] == histories[..i] + [histories[i]];
        words := words + histories[i];
        i := i + 1;
      }
      assert histories[..i] == histories;
    }

    /** `SetState` (tablelookup.cc:180-187): copies the recurrent slot back,
      * clears the histories and regroups the rest of the entry in chunks of
      * `order`. */
    method SetState(hidden: seq<real>, words: seq<int>)
      requires Valid()
      requires recurrency.Some? ==> |hidden| >= dims.Offset()
      requires Chunked(words, order)
      modifies this, b
      ensures Valid() && Position() == old(Position())
      ensures Hidden() == if recurrency.Some? then hidden[..dims.Offset()] else []
      ensures histories == Regroup(words, order)
      ensures weights == old(weights) && bias == old(bias)
    {
      if recurrency.Some? {
        SlotsFit(dims);
        CopyIn(b, hidden[..dims.Offset()], 0);
      }
      var hs := RegroupInOrder(words, order);
      histories := hs;
    }

    /** The arrays `Write` (tablelookup.cc:201-212) emits, in order. */
    function Chunks(): seq<seq<real>>
      reads this, RecurrencyObjects(recurrency)
    {
      [weights]
      + (if bias.Some? then [bias.value] else [])
      + (if recurrency.Some? then recurrency.value.Chunks() else [])
    }

    /** The number of reals `Read` consumes and `Write` emits. */
    function SerializedSize(): nat
      requires order >= 1
      reads this
    {
      WordDimension() * dims.input
      + (if bias.Some? then WordDimension() else 0)
      + (if recurrency.Some? then 2 * (dims.output * dims.output) else 0)
    }

    /** The number of reals `RandomizeWeights` draws: one per weight. */
    function DrawnSize(): nat
      requires order >= 1
      reads this
    {
      WordDimension() * dims.input
      + (if bias.Some? then WordDimension() else 0)
      + (if recurrency.Some? then dims.output * dims.output else 0)
    }

    /** `Read` (tablelookup.cc:189-199) consumes, in order, exactly the arrays
      * `Write` emits. */
    method Read(stream: seq<real>) returns (rest: seq<real>)
      requires Valid() && |stream| >= SerializedSize()
      modifies Repr()
      ensures Valid() && Position() == old(Position()) && bias.Some? == old(bias.Some?)
      ensures histories == old(histories)
      ensures stream == Flatten(Chunks()) + rest
    {
      ghost var done: seq<seq<real>> := [];
      var w, s;
      w, s := TakeChunk(stream, WordDimension() * dims.input, stream, done);
      done := done + [w];
      weights := w;
      if bias.Some? {
        var bw;
        bw, s := TakeChunk(s, WordDimension(), stream, done);
        done := done + [bw];
        bias := Some(bw);
      }
      if recurrency.Some? {
        rest := recurrency.value.Read(s);
        FlattenAppend(done, recurrency.value.Chunks());
        done := done + recurrency.value.Chunks();
      } else {
        rest := s;
      }
      assert done == Chunks();
    }

    /** `RandomizeWeights` (tablelookup.cc:140-155): Gaussian embedding
      * weights, then the bias, then the recurrency, in that order. */
    method RandomizeWeights(draws: seq<real>) returns (rest: seq<real>)
      requires Valid() && |draws| >= DrawnSize()
      modifies Repr()
      ensures Valid() && Position() == old(Position()) && bias.Some? == old(bias.Some?)
      ensures histories == old(histories)
      ensures var n, o := WordDimension() * dims.input, WordDimension();
              && weights == draws[..n]
              && (bias.Some? ==> bias.value == draws[n..n + o])
              && (recurrency.Some? ==>
                    var k := n + if bias.Some? then o else 0;
                    recurrency.value.recurrent == Randomized(draws[k..k + dims.output * dims.output]))
      ensures rest == draws[DrawnSize()..]
    {
      var n := WordDimension() * dims.input;
      weights := draws[..n];
      rest := draws[n..];
      if bias.Some? {
        bias := Some(rest[..WordDimension()]);
        assert rest[..WordDimension()] == draws[n..n + WordDimension()];
        rest := rest[WordDimension()..];
      }
      if recurrency.Some? {
        var k := dims.output * dims.output;
        var m := n + if bias.Some? then WordDimension() else 0;
        assert rest[..k] == draws[m..m + k];
        recurrency.value.RandomizeWeights(rest[..k]);
        rest := rest[k..];
      }
    }
  }
}
