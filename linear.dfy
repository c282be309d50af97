/**
 * The fully connected layer (rwthlm/linear.cc, rwthlm/linear.h), optionally
 * with a bias and a recurrency.
 *
 * The buffers `b_` and `delta_` are kept as arrays; what the matrix kernels
 * and the activation function write into them is not modelled, so
 * `Evaluate`, `ComputeDelta` and `AddDelta` change only cursors here.
 */
module Linears {
  import opened Common
  import opened Functions
  import opened Params
  import opened Recurrencies

  function RecurrencyObjects(r: Option<Recurrency>): set<object>
  {
    if r.Some? then {r.value} else {}
  }

  class Linear {
    const dims: Dims
    const activation: Activation
    const b: array<real>
    const delta: array<real>
    const recurrency: Option<Recurrency>
    var bt: nat
    var deltat: nat
    var weights: Param
    var bias: Option<Param>

    function Repr(): set<object>
    {
      {this, b, delta} + RecurrencyObjects(recurrency)
    }

    ghost predicate Valid()
      reads this, Repr()
    {
      && dims.length >= 1
      && b.Length == dims.BufferSize() && delta.Length == dims.BufferSize() && b != delta
      && weights.Sized(dims.output * dims.input)
      && (bias.Some? ==> bias.value.Sized(dims.output))
      && (recurrency.Some? ==>
            recurrency.value.Valid() && recurrency.value.output == dims.output
            && recurrency.value.offset == dims.Offset())
    }

    /** The cursor pair (`b_t_`, `delta_t_`) as slots. */
    function Position(): Cursor
      reads this
    {
      Cursor(bt, deltat)
    }

    /** The constructor (linear.cc:18-45). The source leaves the cursors
      * unset until the first `Reset` and the weights uninitialised until
      * `Read` or `RandomizeWeights`; the model starts them at base and zero. */
    constructor(dims: Dims, isRecurrent: bool, useBias: bool, activation: Activation)
      requires dims.length >= 1
      ensures Valid() && fresh(Repr())
      ensures this.dims == dims && this.activation == activation
      ensures recurrency.Some? == isRecurrent && bias.Some? == useBias
      ensures bt == 0 && deltat == 0
    {
      this.dims := dims;
      this.activation := activation;
      b := new real[dims.BufferSize()];
      delta := new real[dims.BufferSize()];
      weights := Param(Zeros(dims.output * dims.input), Zeros(dims.output * dims.input));
      bias := if useBias then Some(Param(Zeros(dims.output), Zeros(dims.output))) else None;
      if isRecurrent {
        var r := new Recurrency(dims);
        recurrency := Some(r);
      } else {
        recurrency := None;
      }
      bt, deltat := 0, 0;
    }

    /** `Evaluate` (linear.cc:47-68): works on the slot at `b_t_`, returns it
      * and moves `b_t_` one slot on. The recurrent term is added exactly
      * when there is a recurrency and this is not the first slot. */
    method Evaluate() returns (result: nat, recurrentTerm: bool)
      requires Valid()
      modifies this
      ensures Valid() && Position() == Forward(old(Position()))
      ensures result == old(bt)
      ensures recurrentTerm <==> recurrency.Some? && old(bt) != 0 && dims.Offset() != 0
      ensures weights == old(weights) && bias == old(bias)
    {
      recurrentTerm := false;
      if recurrency.Some? {
        var _, uses := recurrency.value.Evaluate(bt);
        recurrentTerm := uses;
      }
      result := bt;
      bt := bt + 1;
    }

    /** `ComputeDelta` (linear.cc:70-79): `b_t_` moves back to the slot being
      * processed and `delta_t_` stays where the layer above writes into it.
      * The later time step's delta goes through the recurrency unless this
      * is the last time step (`delta_t_` at base). */
    method ComputeDelta() returns (recurrentTerm: bool)
      requires Valid() && bt >= 1
      modifies this
      ensures Valid() && Position() == Backward(old(Position()))
      ensures recurrentTerm <==> recurrency.Some? && deltat != 0 && dims.Offset() != 0
      ensures weights == old(weights) && bias == old(bias)
    {
      bt := bt - 1;
      recurrentTerm := false;
      if recurrency.Some? {
        recurrentTerm := recurrency.value.ComputeDelta(deltat);
      }
    }

    /** `AddDelta` (linear.cc:81-94): after passing its delta down, the delta
      * cursor moves to the previous time step. */
    method AddDelta()
      requires Valid()
      modifies this
      ensures Valid() && Position() == Feed(old(Position()))
      ensures weights == old(weights) && bias == old(bias)
    {
      deltat := deltat + 1;
    }

    /** `UpdateWeights` (linear.cc:96-123): `delta_t_` moves back first; the
      * gradients go into the momentum of the weights and of the bias, the
      * recurrency adds its own, and the slot at `b_t_` is returned before
      * `b_t_` moves on. No weight is changed here. */
    method UpdateWeights(gradient: Gradient) returns (result: nat)
      requires Valid() && deltat >= 1
      modifies Repr()
      ensures Valid() && Position() == Update(old(Position()))
      ensures result == old(bt)
      ensures weights == old(weights).Accumulate(gradient("weights"))
      ensures bias == if old(bias).Some? then Some(old(bias).value.Accumulate(gradient("bias"))) else None
      ensures recurrency.Some? ==>
        recurrency.value.recurrent ==
          if old(bt) != 0 && dims.Offset() != 0
          then old(recurrency.value.recurrent).Accumulate(gradient("recurrent"))
          else old(recurrency.value.recurrent)
    {
      deltat := deltat - 1;
      if bias.Some? {
        bias := Some(bias.value.Accumulate(gradient("bias")));
      }
      weights := weights.Accumulate(gradient("weights"));
      if recurrency.Some? {
        var _ := recurrency.value.UpdateWeights(bt, gradient("recurrent"));
      }
      result := bt;
      bt := bt + 1;
    }

    /** `UpdateMomentumWeights` (linear.cc:125-143): every accumulator,
      * the recurrency's too, is added into its weights and then decayed. */
    method UpdateMomentumWeights(momentum: real)
      requires Valid()
      modifies Repr()
      ensures Valid() && Position() == old(Position())
      ensures weights == old(weights).Apply(momentum)
      ensures bias == if old(bias).Some? then Some(old(bias).value.Apply(momentum)) else None
      ensures recurrency.Some? ==> recurrency.value.recurrent == old(recurrency.value.recurrent).Apply(momentum)
    {
      weights := weights.Apply(momentum);
      if bias.Some? {
        bias := Some(bias.value.Apply(momentum));
      }
      if recurrency.Some? {
        recurrency.value.UpdateMomentumWeights(momentum);
      }
    }

    /** `ResetMomentum` (linear.cc:145-150): zeroes the weight and bias
      * momentum, and leaves the recurrency's alone. */
    method ResetMomentum()
      requires Valid()
      modifies this
      ensures Valid() && Position() == old(Position())
      ensures weights == old(weights).ResetMomentum()
      ensures bias == if old(bias).Some? then Some(old(bias).value.ResetMomentum()) else None
    {
      weights := weights.ResetMomentum();
      if bias.Some? {
        bias := Some(bias.value.ResetMomentum());
      }
    }

    /** `Reset` (linear.cc:152-164). A dependent reset of a recurrent layer
      * needs batch size 1 (fatal otherwise), carries slot 1 over to slot 0
      * and leaves `b_t_` at slot 1; otherwise `b_t_` goes to base. `delta_t_`
      * goes to base, and L-1 activation slots from `b_t_` and the whole
      * delta buffer are zeroed. */
    method Reset(dependent: bool) returns (r: Outcome<()>)
      requires Valid()
      requires dependent && recurrency.Some? && dims.batch == 1 ==> dims.length >= 2
      modifies this, b, delta
      ensures Valid()
      ensures r.IsFatal() <==> dependent && recurrency.Some? && dims.batch != 1
      ensures r.IsFatal() ==> unchanged(this, b, delta)
      ensures !r.IsFatal() ==>
        var carry := dependent && recurrency.Some?;
        && Position() == Cursor(if carry then 1 else 0, 0)
        && b[..] == ResetActivations(old(b[..]), dims.Offset(), carry)
        && delta[..] == Zeros(delta.Length)
      ensures weights == old(weights) && bias == old(bias)
    {
      var carry := dependent && recurrency.Some?;
      if carry && dims.batch != 1 {
        return Fatal("Linear::Reset: a dependent reset needs batch size 1");
      }
      SlotsFit(dims);
      ResetBuffer(b, dims.Offset(), carry);
      bt := if carry then 1 else 0;
      deltat := 0;
      ZeroRange(delta, 0, delta.Length);
      assert delta[..] == Zeros(delta.Length);
      r := Done(());
    }

    /** What `ExtractState` records and `SetState` restores: slot 0 of the
      * activations when recurrent, nothing otherwise. */
    ghost function State(): seq<real>
      requires Valid()
      reads Repr()
    {
      SlotsFit(dims);
      if recurrency.Some? then b[..dims.Offset()] else []
    }

    /** `ExtractState` (linear.cc:166-175); a recurrent layer asserts batch size 1. */
    method ExtractState() returns (r: Outcome<seq<real>>)
      requires Valid()
      ensures r.IsFatal() <==> recurrency.Some? && dims.batch != 1
      ensures !r.IsFatal() ==> r.value == State()
    {
      if recurrency.Some? {
        if dims.batch != 1 {
          return Fatal("Linear::ExtractState needs batch size 1");
        }
        SlotsFit(dims);
        r := Done(b[..dims.Offset()]);
      } else {
        r := Done([]);
      }
    }

    /** `SetState` (linear.cc:177-183): a recurrent layer copies the first
      * `GetOffset()` values into slot 0; any other layer asserts that its
      * entry is empty. */
    method SetState(entry: seq<real>) returns (r: Outcome<()>)
      requires Valid()
      requires recurrency.Some? ==> |entry| >= dims.Offset()
      modifies b
      ensures Valid()
      ensures r.IsFatal() <==> recurrency.None? && entry != []
      ensures !r.IsFatal() ==> State() == if recurrency.Some? then entry[..dims.Offset()] else []
      ensures forall k :: dims.Offset() <= k < b.Length ==> b[k] == old(b[k])
    {
      if recurrency.Some? {
        SlotsFit(dims);
        CopyIn(b, entry[..dims.Offset()], 0);
        r := Done(());
      } else if entry != [] {
        r := Fatal("Linear::SetState: a non-recurrent layer has no state");
      } else {
        r := Done(());
      }
    }

    /** The arrays `Write` (linear.cc:200-213) emits, in order. */
    function Chunks(): seq<seq<real>>
      reads this, RecurrencyObjects(recurrency)
    {
      [weights.weights, weights.momentum]
      + (if bias.Some? then [bias.value.weights, bias.value.momentum] else [])
      + (if recurrency.Some? then recurrency.value.Chunks() else [])
    }

    /** The number of reals `Read` consumes and `Write` emits. */
    function SerializedSize(): nat
      reads this
    {
      2 * DrawnSize()
    }

    /** The number of reals `RandomizeWeights` draws: one per weight. */
    function DrawnSize(): nat
      reads this
    {
      dims.output * dims.input
      + (if bias.Some? then dims.output else 0)
      + (if recurrency.Some? then dims.output * dims.output else 0)
    }

    /** `Read` (linear.cc:185-198) consumes, in order, exactly the arrays
      * `Write` emits. */
    method Read(stream: seq<real>) returns (rest: seq<real>)
      requires Valid() && |stream| >= SerializedSize()
      modifies Repr()
      ensures Valid() && Position() == old(Position()) && bias.Some? == old(bias.Some?)
      ensures stream == Flatten(Chunks()) + rest
    {
      ghost var done: seq<seq<real>> := [];
      var w, m, s;
      w, s := TakeChunk(stream, dims.output * dims.input, stream, done);
      done := done + [w];
      m, s := TakeChunk(s, dims.output * dims.input, stream, done);
      done := done + [m];
      weights := Param(w, m);
      if bias.Some? {
        var bw, bm;
        bw, s := TakeChunk(s, dims.output, stream, done);
        done := done + [bw];
        bm, s := TakeChunk(s, dims.output, stream, done);
        done := done + [bm];
        bias := Some(Param(bw, bm));
      }
      ghost var own := done;
      assert own == [weights.weights, weights.momentum]
                    + (if bias.Some? then [bias.value.weights, bias.value.momentum] else []);
      if recurrency.Some? {
        rest := recurrency.value.Read(s);
        FlattenAppend(done, recurrency.value.Chunks());
        done := done + recurrency.value.Chunks();
      } else {
        rest := s;
        assert done == own + [];
      }
    }

    /** `RandomizeWeights` (linear.cc:215-232): Gaussian weights, then the
      * bias, then the recurrency, drawn in that order from `draws`; all
      * momentum is zero afterwards. */
    method RandomizeWeights(draws: seq<real>) returns (rest: seq<real>)
      requires Valid() && |draws| >= DrawnSize()
      modifies Repr()
      ensures Valid() && Position() == old(Position()) && bias.Some? == old(bias.Some?)
      ensures var n, o := dims.output * dims.input, dims.output;
              && weights == Randomized(draws[..n])
              && (bias.Some? ==> bias.value == Randomized(draws[n..n + o]))
              && (recurrency.Some? ==>
                    var k := n + if bias.Some? then o else 0;
                    recurrency.value.recurrent == Randomized(draws[k..k + o * o]))
      ensures rest == draws[DrawnSize()..]
    {
      var n := dims.output * dims.input;
      weights := Randomized(draws[..n]);
      rest := draws[n..];
      if bias.Some? {
        bias := Some(Randomized(rest[..dims.output]));
        assert rest[..dims.output] == draws[n..n + dims.output];
        rest := rest[dims.output..];
      }
      if recurrency.Some? {
        var k := dims.output * dims.output;
        var m := n + if bias.Some? then dims.output else 0;
        assert rest[..k] == draws[m..m + k];
        recurrency.value.RandomizeWeights(rest[..k]);
        rest := rest[k..];
      }
    }
  }
}
