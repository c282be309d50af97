/**
 * A weight tensor together with its momentum accumulator, as every layer
 * keeps them (`weights_`/`momentum_weights_`, `bias_`/`momentum_bias_`, ...),
 * and the add-then-decay protocol of `UpdateMomentumWeights`.
 *
 * The gradient a kernel accumulates is not computed here: an update takes
 * it as a `contribution` whose values are left out of the model.
 */
module Params {
  import opened Common

  function Zeros(n: nat): (r: seq<real>)
    ensures |r| == n && forall k :: 0 <= k < n ==> r[k] == 0.0
  {
    seq(n, _ => 0.0)
  }

  /** Element-wise `a + c`, where a shorter `c` counts as padded with zeros. */
  function AddPadded(a: seq<real>, c: seq<real>): (r: seq<real>)
    ensures |r| == |a|
    ensures forall k :: 0 <= k < |a| ==> r[k] == a[k] + if k < |c| then c[k] else 0.0
  {
    seq(|a|, k requires 0 <= k < |a| => a[k] + if k < |c| then c[k] else 0.0)
  }

  datatype Param = Param(weights: seq<real>, momentum: seq<real>)
  {
    predicate Sized(n: nat)
    {
      |weights| == n && |momentum| == n
    }

    /** `UpdateMomentumWeights`: weights += momentum, then momentum *= m
      * (linear.cc:125-143, recurrency.h:44-53). */
    function Apply(m: real): (r: Param)
      requires |weights| == |momentum|
      ensures r.Sized(|weights|)
      ensures forall k :: 0 <= k < |weights| ==>
        r.weights[k] == weights[k] + momentum[k] && r.momentum[k] == m * momentum[k]
    {
      Param(seq(|weights|, k requires 0 <= k < |weights| => weights[k] + momentum[k]),
            seq(|momentum|, k requires 0 <= k < |momentum| => m * momentum[k]))
    }

    /** `ResetMomentum`: the accumulator is zeroed, the weights are kept. */
    function ResetMomentum(): (r: Param)
      ensures r.weights == weights && r.momentum == Zeros(|momentum|)
    {
      Param(weights, Zeros(|momentum|))
    }

    /** A gradient step that goes through the accumulator (the class part of
      * the output layer, every Linear and LSTM weight, every recurrency). */
    function Accumulate(contribution: seq<real>): (r: Param)
      ensures r.weights == weights && |r.momentum| == |momentum|
    {
      Param(weights, AddPadded(momentum, contribution))
    }

    /** A gradient step written straight into the weights (the embedding
      * rows and the word part of the output layer). */
    function Direct(contribution: seq<real>): (r: Param)
      ensures r.momentum == momentum && |r.weights| == |weights|
    {
      Param(AddPadded(weights, contribution), momentum)
    }

    /** The serialised form: weights, then momentum. */
    function Serialized(): seq<real>
    {
      weights + momentum
    }
  }

  /** `RandomizeWeights`: fresh weights from the random source, zero momentum. */
  function Randomized(values: seq<real>): (r: Param)
    ensures r.Sized(|values|) && r.weights == values
    ensures forall k :: 0 <= k < |values| ==> r.momentum[k] == 0.0
  {
    Param(values, Zeros(|values|))
  }

  // ---------------------------------------------------------------------
  // Groups of parameters updated together (the four gates of an LSTM)
  // ---------------------------------------------------------------------

  ghost predicate AllSized(ps: seq<Param>, n: nat)
  {
    forall i :: 0 <= i < |ps| ==> ps[i].Sized(n)
  }

  ghost predicate MomentaZero(ps: seq<Param>)
  {
    forall i :: 0 <= i < |ps| ==> ps[i].momentum == Zeros(|ps[i].momentum|)
  }

  function ApplyEach(ps: seq<Param>, m: real): (r: seq<Param>)
    requires forall i :: 0 <= i < |ps| ==> |ps[i].weights| == |ps[i].momentum|
    ensures |r| == |ps| && forall i :: 0 <= i < |ps| ==> r[i] == ps[i].Apply(m)
  {
    seq(|ps|, i requires 0 <= i < |ps| => ps[i].Apply(m))
  }

  function ResetEach(ps: seq<Param>): (r: seq<Param>)
    ensures |r| == |ps| && forall i :: 0 <= i < |ps| ==> r[i] == ps[i].ResetMomentum()
  {
    seq(|ps|, i requires 0 <= i < |ps| => ps[i].ResetMomentum())
  }

  /** Each member accumulates the contribution named for it. */
  function AccumulateEach(ps: seq<Param>, names: seq<string>, contribution: string -> seq<real>): (r: seq<Param>)
    requires |names| == |ps|
    ensures |r| == |ps| && forall i :: 0 <= i < |ps| ==> r[i] == ps[i].Accumulate(contribution(names[i]))
  {
    seq(|ps|, i requires 0 <= i < |ps| => ps[i].Accumulate(contribution(names[i])))
  }

  lemma AccumulateEachSized(ps: seq<Param>, names: seq<string>, contribution: string -> seq<real>, n: nat)
    requires |names| == |ps| && AllSized(ps, n)
    ensures AllSized(AccumulateEach(ps, names, contribution), n)
  {
  }

  /** Member `i` alone accumulates `contribution`. */
  function AccumulateAt(ps: seq<Param>, i: nat, contribution: seq<real>, ghost n: nat): (r: seq<Param>)
    requires i < |ps| && AllSized(ps, n)
    ensures |r| == |ps| && AllSized(r, n) && r[i] == ps[i].Accumulate(contribution)
    ensures forall j :: 0 <= j < |ps| && j != i ==> r[j] == ps[j]
  {
    ps[i := ps[i].Accumulate(contribution)]
  }

  lemma ApplyEachSized(ps: seq<Param>, m: real, n: nat)
    requires AllSized(ps, n)
    ensures AllSized(ApplyEach(ps, m), n)
  {
  }

  lemma ResetEachSized(ps: seq<Param>, n: nat)
    requires AllSized(ps, n)
    ensures AllSized(ResetEach(ps), n)
  {
  }

  function WeightsOf(ps: seq<Param>): (r: seq<seq<real>>)
    ensures |r| == |ps| && forall i :: 0 <= i < |ps| ==> r[i] == ps[i].weights
  {
    seq(|ps|, i requires 0 <= i < |ps| => ps[i].weights)
  }

  function MomentaOf(ps: seq<Param>): (r: seq<seq<real>>)
    ensures |r| == |ps| && forall i :: 0 <= i < |ps| ==> r[i] == ps[i].momentum
  {
    seq(|ps|, i requires 0 <= i < |ps| => ps[i].momentum)
  }

  /** How a group is serialised: all the weights, then all the momenta. */
  function Grouped(ps: seq<Param>): seq<seq<real>>
  {
    WeightsOf(ps) + MomentaOf(ps)
  }

  /** Takes `count` consecutive arrays of `n` reals off the front. */
  method TakeChunks(stream: seq<real>, count: nat, n: nat, ghost whole: seq<real>, ghost done: seq<seq<real>>)
    returns (chunks: seq<seq<real>>, rest: seq<real>)
    requires count * n <= |stream| && whole == Flatten(done) + stream
    ensures |chunks| == count && forall k :: 0 <= k < count ==> |chunks[k]| == n
    ensures |rest| == |stream| - count * n && whole == Flatten(done + chunks) + rest
  {
    chunks := [];
    rest := stream;
    assert done + chunks == done;
    var i := 0;
    ghost var taken := 0;
    while i < count
      invariant i <= count && |chunks| == i && taken == i * n
      invariant forall k :: 0 <= k < i ==> |chunks[k]| == n
      invariant whole == Flatten(done + chunks) + rest && |rest| == |stream| - taken
    {
      MulSucc(i, n);
      MulMonotone(i + 1, count, n);
      taken := taken + n;
      var c;
      c, rest := TakeChunk(rest, n, whole, done + chunks);
      assert done + chunks + [c] == done + (chunks + [c]);
      chunks := chunks + [c];
      i := i + 1;
    }
  }

  /** Reads `count` arrays of `n` reals into the weights of a group, then
    * `count` more into their momenta; `whole` is the stream read so far
    * as `done` followed by `stream`. */
  method ReadGroup(stream: seq<real>, count: nat, n: nat, ghost whole: seq<real>, ghost done: seq<seq<real>>)
    returns (ps: seq<Param>, rest: seq<real>)
    requires |stream| >= 2 * (count * n) && whole == Flatten(done) + stream
    ensures |ps| == count && AllSized(ps, n)
    ensures whole == Flatten(done + Grouped(ps)) + rest
    ensures |rest| == |stream| - 2 * (count * n)
  {
    var ws, s := TakeChunks(stream, count, n, whole, done);
    var ms;
    ms, rest := TakeChunks(s, count, n, whole, done + ws);
    ps := seq(count, k requires 0 <= k < count => Param(ws[k], ms[k]));
    assert WeightsOf(ps) == ws && MomentaOf(ps) == ms;
    assert done + ws + ms == done + Grouped(ps);
  }

  /** Draws a group's weights, `n` reals each, in order, and zeroes their
    * momenta; `whole` is the draws so far as `done` followed by `draws`. */
  method RandomizeGroup(draws: seq<real>, count: nat, n: nat, ghost whole: seq<real>, ghost done: seq<seq<real>>)
    returns (ps: seq<Param>, rest: seq<real>)
    requires |draws| >= count * n && whole == Flatten(done) + draws
    ensures |ps| == count && AllSized(ps, n) && MomentaZero(ps)
    ensures whole == Flatten(done + WeightsOf(ps)) + rest && |rest| == |draws| - count * n
  {
    var ws;
    ws, rest := TakeChunks(draws, count, n, whole, done);
    ps := seq(count, k requires 0 <= k < count => Randomized(ws[k]));
    assert WeightsOf(ps) == ws;
  }

  /** n applications of `UpdateMomentumWeights` with no gradient in between. */
  function ApplyN(p: Param, m: real, n: nat): Param
    requires |p.weights| == |p.momentum|
    decreases n
  {
    if n == 0 then p else ApplyN(p.Apply(m), m, n - 1)
  }

  function Pow(m: real, n: nat): real
  {
    if n == 0 then 1.0 else m * Pow(m, n - 1)
  }

  /** 1 + m + ... + m^(n-1). */
  function Geometric(m: real, n: nat): real
  {
    if n == 0 then 0.0 else 1.0 + m * Geometric(m, n - 1)
  }

  lemma {:induction false} ApplyNSized(p: Param, m: real, n: nat)
    requires |p.weights| == |p.momentum|
    ensures ApplyN(p, m, n).Sized(|p.weights|)
    decreases n
  {
    if n > 0 {
      ApplyNSized(p.Apply(m), m, n - 1);
    }
  }

  /** The momentum decays geometrically: after n applications with no
    * gradient, each weight has moved by its momentum times 1 + m + ... +
    * m^(n-1), and the momentum itself is m^n times the original. */
  lemma {:induction false} ApplyNClosedForm(p: Param, m: real, n: nat, k: nat)
    requires |p.weights| == |p.momentum| && k < |p.weights|
    ensures ApplyN(p, m, n).Sized(|p.weights|)
    ensures ApplyN(p, m, n).weights[k] == p.weights[k] + p.momentum[k] * Geometric(m, n)
    ensures ApplyN(p, m, n).momentum[k] == Pow(m, n) * p.momentum[k]
  {
    ApplyNSized(p, m, n);
    ApplyNWeight(p, m, n, k);
    ApplyNMomentum(p, m, n, k);
  }

  lemma {:induction false} ApplyNWeight(p: Param, m: real, n: nat, k: nat)
    requires |p.weights| == |p.momentum| && k < |p.weights|
    ensures ApplyN(p, m, n).Sized(|p.weights|)
    ensures ApplyN(p, m, n).weights[k] == p.weights[k] + p.momentum[k] * Geometric(m, n)
    decreases n
  {
    ApplyNSized(p, m, n);
    if n > 0 {
      var q := p.Apply(m);
      ApplyNWeight(q, m, n - 1, k);
      var w, d, g := p.weights[k], p.momentum[k], Geometric(m, n - 1);
      assert q.weights[k] == w + d && q.momentum[k] == m * d;
      assert ApplyN(p, m, n) == ApplyN(q, m, n - 1);
      assert (m * d) * g == d * (m * g);
      assert d + d * (m * g) == d * (1.0 + m * g);
    }
  }

  lemma {:induction false} ApplyNMomentum(p: Param, m: real, n: nat, k: nat)
    requires |p.weights| == |p.momentum| && k < |p.weights|
    ensures ApplyN(p, m, n).Sized(|p.weights|)
    ensures ApplyN(p, m, n).momentum[k] == Pow(m, n) * p.momentum[k]
    decreases n
  {
    ApplyNSized(p, m, n);
    if n > 0 {
      var q := p.Apply(m);
      ApplyNMomentum(q, m, n - 1, k);
      var d, e := p.momentum[k], Pow(m, n - 1);
      assert q.momentum[k] == m * d;
      assert e * (m * d) == (m * e) * d;
    }
  }

  /** After `ResetMomentum`, applying the momentum leaves the weights where they were. */
  lemma ResetThenApplyKeepsWeights(p: Param, m: real)
    requires |p.weights| == |p.momentum|
    ensures p.ResetMomentum().Apply(m).weights == p.weights
    ensures p.ResetMomentum().Apply(m).momentum == p.ResetMomentum().momentum
  {
    var z := p.ResetMomentum();
    assert forall k :: 0 <= k < |p.weights| ==> z.Apply(m).weights[k] == p.weights[k];
  }

  // ---------------------------------------------------------------------
  // Serialisation: reading a stream of reals chunk by chunk
  // ---------------------------------------------------------------------

  /** `input_stream->read(dst, n)`: the next n reals of the stream. */
  method Take(stream: seq<real>, n: nat) returns (head: seq<real>, rest: seq<real>)
    requires n <= |stream|
    ensures |head| == n && stream == head + rest
  {
    head, rest := stream[..n], stream[n..];
  }

  /** The same read, keeping track of the chunks read so far from `whole`. */
  method TakeChunk(stream: seq<real>, n: nat, ghost whole: seq<real>, ghost done: seq<seq<real>>)
    returns (head: seq<real>, rest: seq<real>)
    requires n <= |stream| && whole == Flatten(done) + stream
    ensures |head| == n && |rest| == |stream| - n && whole == Flatten(done + [head]) + rest
  {
    head, rest := Take(stream, n);
    FlattenAppend(done, [head]);
    FlattenSingle(head);
  }

  /** Two serialisations of same-sized arrays that agree agree array by
    * array: reading back what was written restores every array. */
  lemma {:induction false} ChunksDetermined(a: seq<seq<real>>, b: seq<seq<real>>, r1: seq<real>, r2: seq<real>)
    requires |a| == |b| && forall i :: 0 <= i < |a| ==> |a[i]| == |b[i]|
    requires Flatten(a) + r1 == Flatten(b) + r2
    ensures a == b && r1 == r2
  {
    if a != [] {
      var n := |a[0]|;
      assert Flatten(a) + r1 == a[0] + (Flatten(a[1..]) + r1);
      assert Flatten(b) + r2 == b[0] + (Flatten(b[1..]) + r2);
      assert a[0] == (Flatten(a) + r1)[..n];
      assert b[0] == (Flatten(b) + r2)[..n];
      assert Flatten(a[1..]) + r1 == (Flatten(a) + r1)[n..];
      assert Flatten(b[1..]) + r2 == (Flatten(b) + r2)[n..];
      ChunksDetermined(a[1..], b[1..], r1, r2);
      assert a == [a[0]] + a[1..];
      assert b == [b[0]] + b[1..];
    } else {
      assert Flatten(a) + r1 == r1 && Flatten(b) + r2 == r2;
    }
  }
}
