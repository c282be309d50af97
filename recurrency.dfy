/**
 * The recurrent connection of a Linear or TableLookup layer
 * (rwthlm/recurrency.cc, rwthlm/recurrency.h): an N x N weight matrix N =
 * output dimension of the owner, applied from the previous time slot of
 * the owner's own buffers.
 *
 * In the source it holds references to the owner's buffer and cursor
 * pointers. Here the owner passes its cursor slots by value on every call,
 * so the recurrency can read them but cannot move them.
 */
module Recurrencies {
  import opened Common
  import opened Functions
  import opened Params

  class Recurrency {
    const output: nat
    const offset: nat
    var recurrent: Param

    ghost predicate Valid()
      reads this
    {
      recurrent.Sized(output * output)
    }

    /** The weights are uninitialised in the source until `Read` or
      * `RandomizeWeights`; the model starts from zeros. */
    constructor(dims: Dims)
      ensures Valid() && output == dims.output && offset == dims.Offset()
      ensures recurrent == Param(Zeros(dims.output * dims.output), Zeros(dims.output * dims.output))
    {
      output := dims.output;
      offset := dims.Offset();
      recurrent := Param(Zeros(dims.output * dims.output), Zeros(dims.output * dims.output));
    }

    /** `Evaluate` (recurrency.cc:34-48): the owner's cursor is returned
      * unchanged; `usesPrevious` says whether W times the previous slot is
      * added, which happens exactly when the cursor is past the base. */
    method Evaluate(bt: nat) returns (result: nat, usesPrevious: bool)
      ensures result == bt
      ensures usesPrevious <==> bt != 0 && offset != 0
    {
      PastBaseIff(bt, offset);
      usesPrevious := PastBase(bt, offset);
      result := bt;
    }

    /** `ComputeDelta` (recurrency.cc:50-64): W-transpose times the delta of
      * the later time step is added only when the delta cursor is past the
      * base, i.e. not for the last time step. */
    method ComputeDelta(deltat: nat) returns (usesNext: bool)
      ensures usesNext <==> deltat != 0 && offset != 0
    {
      PastBaseIff(deltat, offset);
      usesNext := PastBase(deltat, offset);
    }

    /** `UpdateWeights` (recurrency.cc:69-85): only the momentum of the
      * recurrent weights changes, and only when the owner's activation
      * cursor is past the base. */
    method UpdateWeights(bt: nat, contribution: seq<real>) returns (result: nat)
      modifies this
      ensures result == bt
      ensures recurrent == if bt != 0 && offset != 0 then old(recurrent).Accumulate(contribution) else old(recurrent)
      ensures Valid() == old(Valid())
    {
      PastBaseIff(bt, offset);
      if PastBase(bt, offset) {
        recurrent := recurrent.Accumulate(contribution);
      }
      result := bt;
    }

    /** `UpdateMomentumWeights` (recurrency.h:44-53). */
    method UpdateMomentumWeights(momentum: real)
      requires Valid()
      modifies this
      ensures Valid() && recurrent == old(recurrent).Apply(momentum)
    {
      recurrent := recurrent.Apply(momentum);
    }

    /** `ResetMomentum` (recurrency.h:55-58). */
    method ResetMomentum()
      requires Valid()
      modifies this
      ensures Valid() && recurrent == old(recurrent).ResetMomentum()
    {
      recurrent := recurrent.ResetMomentum();
    }

    /** `RandomizeWeights` (recurrency.cc:102-109): Gaussian weights, drawn by
      * the caller, and a momentum of zeros. */
    method RandomizeWeights(values: seq<real>)
      requires |values| == output * output
      modifies this
      ensures Valid() && recurrent == Randomized(values)
    {
      recurrent := Randomized(values);
    }

    /** The arrays `Write` (recurrency.cc:94-100) emits, in order. */
    function Chunks(): seq<seq<real>>
      reads this
    {
      [recurrent.weights, recurrent.momentum]
    }

    /** `Read` (recurrency.cc:87-92): consumes the recurrent weights, then
      * their momentum, which is exactly what `Write` emits. */
    method Read(stream: seq<real>) returns (rest: seq<real>)
      requires |stream| >= 2 * (output * output)
      modifies this
      ensures Valid() && stream == Flatten(Chunks()) + rest
      ensures |rest| == |stream| - 2 * (output * output)
    {
      var n := output * output;
      ghost var done: seq<seq<real>> := [];
      var w, m, s;
      w, s := TakeChunk(stream, n, stream, done);
      done := done + [w];
      m, rest := TakeChunk(s, n, stream, done);
      done := done + [m];
      recurrent := Param(w, m);
      assert done == Chunks();
    }
  }
}
