/**
 * The long short-term memory layer (rwthlm/lstm.cc, rwthlm/lstm.h): a cell
 * unit and an input, a forget and an output gate, each with input weights,
 * recurrent weights and an optional bias; the three gates also have
 * peephole weights on the cell state.
 *
 * The LSTM is always recurrent. It keeps six activation buffers (the output
 * `b_`, the cell state `cec_b_`, the cell input and the three gate
 * activations) and five delta buffers, each with its own cursor. The matrix
 * kernels and activation functions are not modelled: what each step adds
 * to which buffer is left out, and the model says which terms a step uses,
 * where the cursors go and what happens to the weights and momenta.
 *
 * The four units' parameters are kept as sequences in the source's order:
 * cell, input gate, forget gate, output gate (the peepholes: input,
 * forget, output).
 */
module Lstms {
  import opened Common
  import opened Functions
  import opened Params

  /** The gradient accumulators of the four units, named as in the source. */
  const WeightNames: seq<string> :=
    ["weights", "input_gate_weights", "forget_gate_weights", "output_gate_weights"]
  const RecurrentNames: seq<string> :=
    ["recurrent_weights", "input_gate_recurrent_weights",
     "forget_gate_recurrent_weights", "output_gate_recurrent_weights"]
  const PeepholeNames: seq<string> :=
    ["input_gate_peephole_weights", "forget_gate_peephole_weights", "output_gate_peephole_weights"]
  const BiasNames: seq<string> :=
    ["bias", "input_gate_bias", "forget_gate_bias", "output_gate_bias"]

  /** Peephole indices. */
  const InputPeephole := 0
  const ForgetPeephole := 1
  const OutputPeephole := 2

  /** Which terms of the backward step are computed. */
  datatype BackwardTerms = BackwardTerms(
    later: bool,       // the later time step's deltas: recurrent weights, forget-gated and peephole cell error
    forgetGate: bool)  // the forget gate's delta, which needs the previous cell state

  /** The sizes of one unit's input weights (N*M), recurrent weights (N*N)
    * and peephole or bias vector (N), for N outputs and M inputs. */
  datatype Shape = Shape(input: nat, recurrent: nat, cell: nat)
  {
    /** The number of reals `Read` consumes and `Write` emits. */
    function SerializedSize(useBias: bool): nat
    {
      2 * (4 * input) + 2 * (4 * recurrent) + 2 * (3 * cell) + if useBias then 2 * (4 * cell) else 0
    }

    /** The number of reals `RandomizeWeights` draws. */
    function DrawnSize(useBias: bool): nat
    {
      4 * input + 4 * recurrent + 3 * cell + if useBias then 4 * cell else 0
    }
  }

  function ShapeOf(dims: Dims): Shape
  {
    Shape(dims.output * dims.input, dims.output * dims.output, dims.output)
  }

  /** All weights and momenta of the layer, per group in unit order. */
  datatype LstmParams = LstmParams(weights: seq<Param>, recurrent: seq<Param>, peephole: seq<Param>, bias: Option<seq<Param>>)
  {
    ghost predicate SizedAs(shape: Shape)
    {
      && |weights| == 4 && AllSized(weights, shape.input)
      && |recurrent| == 4 && AllSized(recurrent, shape.recurrent)
      && |peephole| == 3 && AllSized(peephole, shape.cell)
      && (bias.Some? ==> |bias.value| == 4 && AllSized(bias.value, shape.cell))
    }

    /** The momentum updates of one `UpdateWeights` call: every bias and
      * input-weight gradient is accumulated; the recurrent and the input
      * and forget peephole gradients only when the step continues from a
      * previous slot; the output peephole gradient always. */
    function Accumulated(gradient: Gradient, continued: bool, ghost shape: Shape): (r: LstmParams)
      requires SizedAs(shape)
      ensures r.SizedAs(shape)
      ensures r.weights == AccumulateEach(weights, WeightNames, gradient)
      ensures r.bias == if bias.Some? then Some(AccumulateEach(bias.value, BiasNames, gradient)) else None
      ensures r.recurrent == if continued then AccumulateEach(recurrent, RecurrentNames, gradient) else recurrent
      ensures r.peephole[InputPeephole] ==
        if continued then peephole[InputPeephole].Accumulate(gradient(PeepholeNames[InputPeephole]))
        else peephole[InputPeephole]
      ensures r.peephole[ForgetPeephole] ==
        if continued then peephole[ForgetPeephole].Accumulate(gradient(PeepholeNames[ForgetPeephole]))
        else peephole[ForgetPeephole]
      ensures r.peephole[OutputPeephole] ==
        peephole[OutputPeephole].Accumulate(gradient(PeepholeNames[OutputPeephole]))
    {
      AccumulateEachSized(weights, WeightNames, gradient, shape.input);
      AccumulateEachSized(recurrent, RecurrentNames, gradient, shape.recurrent);
      assert bias.Some? ==> AllSized(AccumulateEach(bias.value, BiasNames, gradient), shape.cell) by {
        if bias.Some? {
          AccumulateEachSized(bias.value, BiasNames, gradient, shape.cell);
        }
      }
      var p0 := if continued then AccumulateAt(peephole, InputPeephole, gradient(PeepholeNames[InputPeephole]), shape.cell)
                else peephole;
      var p1 := if continued then AccumulateAt(p0, ForgetPeephole, gradient(PeepholeNames[ForgetPeephole]), shape.cell)
                else p0;
      var p2 := AccumulateAt(p1, OutputPeephole, gradient(PeepholeNames[OutputPeephole]), shape.cell);
      LstmParams(
        AccumulateEach(weights, WeightNames, gradient),
        if continued then AccumulateEach(recurrent, RecurrentNames, gradient) else recurrent,
        p2,
        if bias.Some? then Some(AccumulateEach(bias.value, BiasNames, gradient)) else None)
    }

    /** `UpdateMomentumWeights` on every one of the fifteen pairs. */
    function Applied(momentum: real, ghost shape: Shape): (r: LstmParams)
      requires SizedAs(shape)
      ensures r.SizedAs(shape)
      ensures r.weights == ApplyEach(weights, momentum) && r.recurrent == ApplyEach(recurrent, momentum)
      ensures r.peephole == ApplyEach(peephole, momentum)
      ensures r.bias == if bias.Some? then Some(ApplyEach(bias.value, momentum)) else None
    {
      ApplyEachSized(weights, momentum, shape.input);
      ApplyEachSized(recurrent, momentum, shape.recurrent);
      ApplyEachSized(peephole, momentum, shape.cell);
      if bias.Some? then
        ApplyEachSized(bias.value, momentum, shape.cell);
        LstmParams(ApplyEach(weights, momentum), ApplyEach(recurrent, momentum), ApplyEach(peephole, momentum),
                   Some(ApplyEach(bias.value, momentum)))
      else
        LstmParams(ApplyEach(weights, momentum), ApplyEach(recurrent, momentum), ApplyEach(peephole, momentum), None)
    }

    /** `ResetMomentum` on every pair. */
    function MomentaReset(ghost shape: Shape): (r: LstmParams)
      requires SizedAs(shape)
      ensures r.SizedAs(shape)
      ensures r.weights == ResetEach(weights) && r.recurrent == ResetEach(recurrent)
      ensures r.peephole == ResetEach(peephole)
      ensures r.bias == if bias.Some? then Some(ResetEach(bias.value)) else None
    {
      ResetEachSized(weights, shape.input);
      ResetEachSized(recurrent, shape.recurrent);
      ResetEachSized(peephole, shape.cell);
      if bias.Some? then
        ResetEachSized(bias.value, shape.cell);
        LstmParams(ResetEach(weights), ResetEach(recurrent), ResetEach(peephole), Some(ResetEach(bias.value)))
      else
        LstmParams(ResetEach(weights), ResetEach(recurrent), ResetEach(peephole), None)
    }

    /** The arrays `Write` (lstm.cc:1044-1105) emits, in order: per group the
      * weights of every unit, then their momenta; the input weights, the
      * recurrent weights, the peepholes, then the biases if present. */
    function Chunks(): seq<seq<real>>
    {
      Grouped(weights) + Grouped(recurrent) + Grouped(peephole)
      + if bias.Some? then Grouped(bias.value) else []
    }

    /** The weights `RandomizeWeights` draws, in the order it draws them. */
    function DrawnWeights(): seq<seq<real>>
    {
      WeightsOf(weights) + WeightsOf(recurrent) + WeightsOf(peephole)
      + if bias.Some? then WeightsOf(bias.value) else []
    }

    ghost predicate AllMomentaZero()
    {
      && MomentaZero(weights) && MomentaZero(recurrent) && MomentaZero(peephole)
      && (bias.Some? ==> MomentaZero(bias.value))
    }
  }

  function ZeroParams(shape: Shape, useBias: bool): (r: LstmParams)
    ensures r.SizedAs(shape) && r.bias.Some? == useBias
  {
    var wi := Param(Zeros(shape.input), Zeros(shape.input));
    var wr := Param(Zeros(shape.recurrent), Zeros(shape.recurrent));
    var wc := Param(Zeros(shape.cell), Zeros(shape.cell));
    LstmParams([wi, wi, wi, wi], [wr, wr, wr, wr], [wc, wc, wc],
               if useBias then Some([wc, wc, wc, wc]) else None)
  }

  /** `Read` (lstm.cc:981-1042) consumes, in order, exactly the arrays
    * `Write` emits. */
  method ReadParams(stream: seq<real>, shape: Shape, useBias: bool) returns (p: LstmParams, rest: seq<real>)
    requires |stream| >= shape.SerializedSize(useBias)
    ensures p.SizedAs(shape) && p.bias.Some? == useBias
    ensures stream == Flatten(p.Chunks()) + rest
    ensures |rest| == |stream| - shape.SerializedSize(useBias)
  {
    var ws, rs, ps, s1, s2, s3;
    ws, s1 := ReadGroup(stream, 4, shape.input, stream, []);
    assert [] + Grouped(ws) == Grouped(ws);
    rs, s2 := ReadGroup(s1, 4, shape.recurrent, stream, Grouped(ws));
    ps, s3 := ReadGroup(s2, 3, shape.cell, stream, Grouped(ws) + Grouped(rs));
    if useBias {
      var bs;
      bs, rest := ReadGroup(s3, 4, shape.cell, stream, Grouped(ws) + Grouped(rs) + Grouped(ps));
      p := LstmParams(ws, rs, ps, Some(bs));
      assert p.Chunks() == Grouped(ws) + Grouped(rs) + Grouped(ps) + Grouped(bs);
    } else {
      rest := s3;
      p := LstmParams(ws, rs, ps, None);
      assert p.Chunks() == Grouped(ws) + Grouped(rs) + Grouped(ps);
    }
  }

  /** `RandomizeWeights` (lstm.cc:909-979): Gaussian weights drawn from
    * `draws` in the order of `Write`; every momentum is zero afterwards. */
  method RandomizeParams(draws: seq<real>, shape: Shape, useBias: bool) returns (p: LstmParams, rest: seq<real>)
    requires |draws| >= shape.DrawnSize(useBias)
    ensures p.SizedAs(shape) && p.bias.Some? == useBias
    ensures draws == Flatten(p.DrawnWeights()) + rest
    ensures |rest| == |draws| - shape.DrawnSize(useBias)
    ensures p.AllMomentaZero()
  {
    var ws, rs, ps, s1, s2, s3;
    ws, s1 := RandomizeGroup(draws, 4, shape.input, draws, []);
    assert [] + WeightsOf(ws) == WeightsOf(ws);
    rs, s2 := RandomizeGroup(s1, 4, shape.recurrent, draws, WeightsOf(ws));
    ps, s3 := RandomizeGroup(s2, 3, shape.cell, draws, WeightsOf(ws) + WeightsOf(rs));
    if useBias {
      var bs;
      bs, rest := RandomizeGroup(s3, 4, shape.cell, draws, WeightsOf(ws) + WeightsOf(rs) + WeightsOf(ps));
      p := LstmParams(ws, rs, ps, Some(bs));
      assert p.DrawnWeights() == WeightsOf(ws) + WeightsOf(rs) + WeightsOf(ps) + WeightsOf(bs);
    } else {
      rest := s3;
      p := LstmParams(ws, rs, ps, None);
      assert p.DrawnWeights() == WeightsOf(ws) + WeightsOf(rs) + WeightsOf(ps);
    }
  }

  /** The eleven cursors of the layer, in slots: six activation cursors
    * (`b_t_`, `cec_b_t_`, `cec_input_b_t_` and the three gates') and five
    * delta cursors (`cec_epsilon_t_`, `delta_t_` and the three gates'). */
  datatype Cursors = Cursors(
    b: nat, cecB: nat, cecInput: nat, inputGate: nat, forgetGate: nat, outputGate: nat,
    cecEpsilon: nat, delta: nat, inputGateDelta: nat, forgetGateDelta: nat, outputGateDelta: nat)
  {
    /** The cursors move in lock step: the cell-state cursor with `b_t_`,
      * the four unit cursors together, at most one slot behind `b_t_` (one
      * after a dependent reset), and the five delta cursors together. */
    predicate InStep()
    {
      && cecB == b
      && inputGate == cecInput && forgetGate == cecInput && outputGate == cecInput
      && cecInput <= b <= cecInput + 1
      && cecEpsilon == delta && inputGateDelta == delta
      && forgetGateDelta == delta && outputGateDelta == delta
    }

    /** The pair (`b_t_`, `delta_t_`) the network steps through. */
    function Position(): Cursor
    {
      Cursor(b, delta)
    }

    /** How far the unit cursors trail `b_t_`. */
    function Lag(): int
    {
      b - cecInput
    }

    /** All six activation cursors one slot on (`Evaluate`, `UpdateWeights`). */
    function Advanced(): (r: Cursors)
      ensures InStep() ==> r.InStep() && r.Lag() == Lag()
      ensures r.Position() == Forward(Position())
    {
      Cursors(b + 1, cecB + 1, cecInput + 1, inputGate + 1, forgetGate + 1, outputGate + 1,
              cecEpsilon, delta, inputGateDelta, forgetGateDelta, outputGateDelta)
    }

    /** All six activation cursors one slot back (`ComputeDelta`). */
    function Retreated(): (r: Cursors)
      requires InStep() && cecInput >= 1
      ensures r.InStep() && r.Lag() == Lag()
      ensures Position().b >= 1 && r.Position() == Backward(Position())
    {
      Cursors(b - 1, cecB - 1, cecInput - 1, inputGate - 1, forgetGate - 1, outputGate - 1,
              cecEpsilon, delta, inputGateDelta, forgetGateDelta, outputGateDelta)
    }

    /** All five delta cursors one slot on (`AddDelta`). */
    function Fed(): (r: Cursors)
      ensures InStep() ==> r.InStep() && r.Lag() == Lag()
      ensures r.Position() == Feed(Position())
    {
      Cursors(b, cecB, cecInput, inputGate, forgetGate, outputGate,
              cecEpsilon + 1, delta + 1, inputGateDelta + 1, forgetGateDelta + 1, outputGateDelta + 1)
    }

    /** All five delta cursors one slot back (the start of `UpdateWeights`). */
    function Unfed(): (r: Cursors)
      requires InStep() && delta >= 1
      ensures r.InStep() && r.Lag() == Lag()
      ensures r.Position() == Cursor(b, delta - 1)
    {
      Cursors(b, cecB, cecInput, inputGate, forgetGate, outputGate,
              cecEpsilon - 1, delta - 1, inputGateDelta - 1, forgetGateDelta - 1, outputGateDelta - 1)
    }
  }

  /** Where `Reset` leaves the cursors: `b_t_` and `cec_b_t_` at slot 1
    * after a dependent reset and at base otherwise, all others at base. */
  function ResetCursors(dependent: bool): (r: Cursors)
    ensures r.InStep() && r.Position() == Cursor(if dependent then 1 else 0, 0)
    ensures r.Lag() == if dependent then 1 else 0
  {
    if dependent then Cursors(1, 1, 0, 0, 0, 0, 0, 0, 0, 0, 0)
    else Cursors(0, 0, 0, 0, 0, 0, 0, 0, 0, 0, 0)
  }

  /** Every buffer listed holds `n` zeros. */
  ghost predicate AllZero(bufs: seq<array<real>>, n: nat)
    reads set a | a in bufs
  {
    forall i :: 0 <= i < |bufs| ==> bufs[i][..] == Zeros(n)
  }

  class Lstm {
    const dims: Dims
    // activations
    const b: array<real>
    const cecB: array<real>
    const cecInputB: array<real>
    const inputGateB: array<real>
    const forgetGateB: array<real>
    const outputGateB: array<real>
    // deltas and cell errors
    const cecEpsilon: array<real>
    const delta: array<real>
    const inputGateDelta: array<real>
    const forgetGateDelta: array<real>
    const outputGateDelta: array<real>
    var cursors: Cursors
    var params: LstmParams

    /** The buffers `Reset` zeroes completely (all but `b_` and `cec_b_`). */
    function Scratch(): seq<array<real>>
    {
      [cecInputB, inputGateB, forgetGateB, outputGateB,
       cecEpsilon, delta, inputGateDelta, forgetGateDelta, outputGateDelta]
    }

    function Repr(): set<object>
    {
      {this, b, cecB, cecInputB, inputGateB, forgetGateB, outputGateB,
       cecEpsilon, delta, inputGateDelta, forgetGateDelta, outputGateDelta}
    }

    /** Every buffer holds L slots; `b_` and `cec_b_` are distinct from
      * each other and from the rest. */
    ghost predicate BuffersValid()
    {
      && dims.length >= 1
      && b.Length == dims.BufferSize() && cecB.Length == dims.BufferSize()
      && (forall i :: 0 <= i < |Scratch()| ==> Scratch()[i].Length == dims.BufferSize())
      && b != cecB && b !in Scratch() && cecB !in Scratch()
    }

    ghost predicate Valid()
      reads this
    {
      BuffersValid() && cursors.InStep() && params.SizedAs(ShapeOf(dims))
    }

    function Position(): Cursor
      reads this
    {
      cursors.Position()
    }

    function Lag(): int
      reads this
    {
      cursors.Lag()
    }

    /** The constructor (lstm.cc:19-96); the four biases exist together or
      * not at all. Cursors start at base and weights at zero, where the
      * source leaves them unset until `Reset` and `Read` or
      * `RandomizeWeights`. */
    constructor(dims: Dims, useBias: bool)
      requires dims.length >= 1
      ensures Valid() && fresh(Repr())
      ensures this.dims == dims && params == ZeroParams(ShapeOf(dims), useBias)
      ensures Position() == Cursor(0, 0) && Lag() == 0
    {
      this.dims := dims;
      var n := dims.BufferSize();
      b := new real[n];
      cecB := new real[n];
      cecInputB := new real[n];
      inputGateB := new real[n];
      forgetGateB := new real[n];
      outputGateB := new real[n];
      cecEpsilon := new real[n];
      delta := new real[n];
      inputGateDelta := new real[n];
      forgetGateDelta := new real[n];
      outputGateDelta := new real[n];
      cursors := Cursors(0, 0, 0, 0, 0, 0, 0, 0, 0, 0, 0);
      params := ZeroParams(ShapeOf(dims), useBias);
    }

    /** `Evaluate` (lstm.cc:142-209): returns the slot written and moves all
      * six activation cursors on. Unless `b_t_` is at base (`start`), the
      * step continues from the previous slot: the four units add their
      * recurrent terms, the input and forget gates their peepholes on the
      * previous cell state, and the forget-gated previous state is added to
      * the cell. The output gate's peephole on the new cell state is always
      * used. */
    method Evaluate() returns (result: nat, continued: bool)
      requires Valid()
      modifies this
      ensures Valid() && Position() == Forward(old(Position())) && Lag() == old(Lag())
      ensures result == old(Position()).b
      ensures continued <==> old(Position()).b != 0 && dims.Offset() != 0
      ensures params == old(params)
    {
      PastBaseIff(cursors.b, dims.Offset());
      continued := PastBase(cursors.b, dims.Offset());
      result := cursors.b;
      cursors := cursors.Advanced();
    }

    /** `ComputeDelta` (lstm.cc:257-391): the six activation cursors move
      * back to the slot being processed. The later time step's deltas (the
      * four recurrent matrices into the output delta, the forget-gated and
      * peephole cell errors) are used unless `delta_t_` is at base, i.e.
      * for all but the last time step; the forget gate's delta is computed
      * only when `b_t_` is not at base, since it needs the previous cell
      * state. The unit cursors must not move before their base. */
    method ComputeDelta() returns (terms: BackwardTerms)
      requires Valid() && cursors.cecInput >= 1
      modifies this
      ensures Valid() && Position() == Backward(old(Position())) && Lag() == old(Lag())
      ensures terms.later <==> Position().delta != 0 && dims.Offset() != 0
      ensures terms.forgetGate <==> Position().b != 0 && dims.Offset() != 0
      ensures params == old(params)
    {
      cursors := cursors.Retreated();
      PastBaseIff(cursors.delta, dims.Offset());
      PastBaseIff(cursors.b, dims.Offset());
      terms := BackwardTerms(PastBase(cursors.delta, dims.Offset()), PastBase(cursors.b, dims.Offset()));
    }

    /** `AddDelta` (lstm.cc:393-435): after the four input-weight products
      * are passed down, all five delta cursors move on. */
    method AddDelta()
      requires Valid()
      modifies this
      ensures Valid() && Position() == Feed(old(Position())) && Lag() == old(Lag())
      ensures params == old(params)
    {
      cursors := cursors.Fed();
    }

    /** `UpdateWeights` (lstm.cc:437-656): the delta cursors move back first;
      * the gradients go into the momenta as `Accumulated` says, the step
      * continuing from a previous slot unless `b_t_` is at base; then the
      * slot at `b_t_` is returned and the activation cursors move on. No
      * weight changes here. */
    method UpdateWeights(gradient: Gradient) returns (result: nat, continued: bool)
      requires Valid() && Position().delta >= 1
      modifies this
      ensures Valid() && Position() == Update(old(Position())) && Lag() == old(Lag())
      ensures result == old(Position()).b
      ensures continued <==> old(Position()).b != 0 && dims.Offset() != 0
      ensures params == old(params).Accumulated(gradient, continued, ShapeOf(dims))
    {
      var c := cursors.Unfed();
      PastBaseIff(c.b, dims.Offset());
      continued := PastBase(c.b, dims.Offset());
      params := params.Accumulated(gradient, continued, ShapeOf(dims));
      result := c.b;
      cursors := c.Advanced();
    }

    /** `UpdateMomentumWeights` (lstm.cc:658-831): every one of the fifteen
      * accumulators is added into its weights and then decayed. */
    method UpdateMomentumWeights(momentum: real)
      requires Valid()
      modifies this
      ensures Valid() && Position() == old(Position()) && Lag() == old(Lag())
      ensures params == old(params).Applied(momentum, ShapeOf(dims))
    {
      params := params.Applied(momentum, ShapeOf(dims));
    }

    /** `ResetMomentum` (lstm.cc:833-856): every accumulator is zeroed. */
    method ResetMomentum()
      requires Valid()
      modifies this
      ensures Valid() && Position() == old(Position()) && Lag() == old(Lag())
      ensures params == old(params).MomentaReset(ShapeOf(dims))
    {
      params := params.MomentaReset(ShapeOf(dims));
    }

    /** `Reset` (lstm.cc:858-895). A dependent reset needs batch size 1
      * (fatal otherwise); it carries slot 1 of the output and of the cell
      * state over to slot 0 and leaves their cursors at slot 1. Otherwise
      * those cursors go to base. The four unit cursors and the five delta
      * cursors always go to base, the L-1 slots from `b_t_` and from
      * `cec_b_t_` are zeroed, and so is every other buffer. */
    method Reset(dependent: bool) returns (r: Outcome<()>)
      requires Valid()
      requires dependent && dims.batch == 1 ==> dims.length >= 2
      modifies Repr()
      ensures Valid() && params == old(params)
      ensures r.IsFatal() <==> dependent && dims.batch != 1
      ensures r.IsFatal() ==> unchanged(Repr())
      ensures !r.IsFatal() ==> cursors == ResetCursors(dependent)
      ensures !r.IsFatal() ==> b[..] == ResetActivations(old(b[..]), dims.Offset(), dependent)
      ensures !r.IsFatal() ==> cecB[..] == ResetActivations(old(cecB[..]), dims.Offset(), dependent)
      ensures !r.IsFatal() ==> AllZero(Scratch(), dims.BufferSize())
    {
      if dependent && dims.batch != 1 {
        return Fatal("LSTM::Reset: a dependent reset needs batch size 1");
      }
      SlotsFit(dims);
      cursors := ResetCursors(dependent);
      ResetBuffers(dependent);
      r := Done(());
    }

    /** The buffer part of `Reset`: `b_` and `cec_b_` as `ResetActivations`
      * says, every other buffer zeroed. */
    method ResetBuffers(carry: bool)
      requires BuffersValid() && (carry ==> 2 * dims.Offset() <= dims.BufferSize())
      modifies b, cecB, cecInputB, inputGateB, forgetGateB, outputGateB
      modifies cecEpsilon, delta, inputGateDelta, forgetGateDelta, outputGateDelta
      ensures b[..] == ResetActivations(old(b[..]), dims.Offset(), carry)
      ensures cecB[..] == ResetActivations(old(cecB[..]), dims.Offset(), carry)
      ensures AllZero(Scratch(), dims.BufferSize())
    {
      SlotsFit(dims);
      ResetBuffer(b, dims.Offset(), carry);
      ResetBuffer(cecB, dims.Offset(), carry);
      ZeroAll(Scratch());
    }

    /** What `ExtractState` records and `SetState` restores: slot 0 of the
      * output, then slot 0 of the cell state. */
    ghost function State(): seq<real>
      requires Valid()
      reads this, b, cecB
    {
      SlotsFit(dims);
      b[..dims.Offset()] + cecB[..dims.Offset()]
    }

    /** `ExtractState` (lstm.cc:897-902); unlike the other layers it does
      * not check the batch size. */
    method ExtractState() returns (state: seq<real>)
      requires Valid()
      ensures state == State() && |state| == 2 * dims.Offset()
    {
      SlotsFit(dims);
      state := b[..dims.Offset()] + cecB[..dims.Offset()];
    }

    /** `SetState` (lstm.cc:904-907): the first `GetOffset()` values go to
      * slot 0 of the output, the next `GetOffset()` to slot 0 of the cell
      * state; the entry must hold both. */
    method SetState(entry: seq<real>)
      requires Valid() && |entry| >= 2 * dims.Offset()
      modifies b, cecB
      ensures Valid() && State() == entry[..2 * dims.Offset()]
      ensures forall k :: dims.Offset() <= k < b.Length ==> b[k] == old(b[k]) && cecB[k] == old(cecB[k])
    {
      SlotsFit(dims);
      var o := dims.Offset();
      CopyIn(b, entry[..o], 0);
      CopyIn(cecB, entry[o..2 * o], 0);
      assert entry[..2 * o] == entry[..o] + entry[o..2 * o];
    }

    function Chunks(): seq<seq<real>>
      reads this
    {
      params.Chunks()
    }

    /** `Read` (lstm.cc:981-1042). */
    method Read(stream: seq<real>) returns (rest: seq<real>)
      requires Valid() && |stream| >= ShapeOf(dims).SerializedSize(params.bias.Some?)
      modifies this
      ensures Valid() && Position() == old(Position()) && Lag() == old(Lag())
      ensures params.bias.Some? == old(params.bias.Some?)
      ensures stream == Flatten(Chunks()) + rest
      ensures |rest| == |stream| - ShapeOf(dims).SerializedSize(params.bias.Some?)
    {
      params, rest := ReadParams(stream, ShapeOf(dims), params.bias.Some?);
    }

    /** `RandomizeWeights` (lstm.cc:909-979). */
    method RandomizeWeights(draws: seq<real>) returns (rest: seq<real>)
      requires Valid() && |draws| >= ShapeOf(dims).DrawnSize(params.bias.Some?)
      modifies this
      ensures Valid() && Position() == old(Position()) && Lag() == old(Lag())
      ensures params.bias.Some? == old(params.bias.Some?)
      ensures draws == Flatten(params.DrawnWeights()) + rest && params.AllMomentaZero()
    {
      params, rest := RandomizeParams(draws, ShapeOf(dims), params.bias.Some?);
    }
  }
}
