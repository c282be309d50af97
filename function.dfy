/**
 * What every layer of the network shares (rwthlm/function.h): its four
 * dimensions, the per-timestep stride of its buffers, the movement of its
 * time cursors, and the buffer operations used by `Reset` and `SetState`.
 *
 * A layer keeps one buffer per quantity, `max_sequence_length` time slots
 * of `GetOffset()` reals each, and walks pointers through it. The model
 * counts those pointers in slots: a cursor at slot `t` stands for the
 * pointer `base + t * GetOffset()`.
 */
module Functions {
  import opened Common
  import opened Params

  /** The constructor arguments of `Function` (function.h:52-60). */
  datatype Dims = Dims(input: nat, output: nat, batch: nat, length: nat)
  {
    /** `GetOffset` (function.h:120-122): the stride from one time slot to the next. */
    function Offset(): nat
    {
      output * batch
    }

    /** Reals in one activation or delta buffer. */
    function BufferSize(): nat
    {
      Offset() * length
    }
  }

  lemma SlotInBuffer(o: nat, length: nat, t: nat, k: nat)
    requires t < length && k < o
    ensures t * o + k < o * length
  {
    assert (t + 1) * o == t * o + o;
    assert t + 1 <= length;
    assert (t + 1) * o <= length * o;
  }

  /** The first one and two slots lie inside the buffer. */
  lemma SlotsFit(d: Dims)
    requires d.length >= 1
    ensures d.Offset() <= d.BufferSize()
    ensures d.length >= 2 ==> 2 * d.Offset() <= d.BufferSize()
  {
    SlotsOrdered(d.Offset(), 1, d.length);
    if d.length >= 2 {
      SlotsOrdered(d.Offset(), 2, d.length);
    }
  }

  lemma SlotsOrdered(o: nat, t: nat, u: nat)
    requires t <= u
    ensures t * o <= u * o
  {
  }

  // ---------------------------------------------------------------------
  // The time-cursor cycle of one layer
  // ---------------------------------------------------------------------

  /** The activation cursor `b_t_` and the delta cursor `delta_t_`, in slots. */
  datatype Cursor = Cursor(b: nat, delta: nat)

  /** `Evaluate`: the activation cursor moves on one slot. */
  function Forward(c: Cursor): Cursor
  {
    c.(b := c.b + 1)
  }

  /** `ComputeDelta`: the activation cursor moves back to the slot being processed. */
  function Backward(c: Cursor): Cursor
    requires c.b >= 1
  {
    c.(b := c.b - 1)
  }

  /** `AddDelta`, called by the layer above once it has written into this
    * layer's delta slot: the delta cursor moves on. */
  function Feed(c: Cursor): Cursor
  {
    c.(delta := c.delta + 1)
  }

  /** `UpdateWeights`: the delta cursor moves back to the slot it reads, and
    * the activation cursor moves on. */
  function Update(c: Cursor): Cursor
    requires c.delta >= 1
  {
    Cursor(c.b + 1, c.delta - 1)
  }

  function Forwards(c: Cursor, n: nat): Cursor
    decreases n
  {
    if n == 0 then c else Forwards(Forward(c), n - 1)
  }

  function Backwards(c: Cursor, n: nat): Cursor
    requires c.b >= n
    decreases n
  {
    if n == 0 then c else Backwards(Feed(Backward(c)), n - 1)
  }

  function Updates(c: Cursor, n: nat): Cursor
    requires c.delta >= n
    decreases n
  {
    if n == 0 then c else Updates(Update(c), n - 1)
  }

  lemma {:induction false} ForwardsFrom(c: Cursor, n: nat)
    ensures Forwards(c, n) == Cursor(c.b + n, c.delta)
    decreases n
  {
    if n > 0 {
      ForwardsFrom(Forward(c), n - 1);
    }
  }

  lemma {:induction false} BackwardsFrom(c: Cursor, n: nat)
    requires c.b >= n
    ensures Backwards(c, n) == Cursor(c.b - n, c.delta + n)
    decreases n
  {
    if n > 0 {
      BackwardsFrom(Feed(Backward(c)), n - 1);
    }
  }

  lemma {:induction false} UpdatesFrom(c: Cursor, n: nat)
    requires c.delta >= n
    ensures Updates(c, n) == Cursor(c.b + n, c.delta - n)
    decreases n
  {
    if n > 0 {
      UpdatesFrom(Update(c), n - 1);
    }
  }

  /** One batch of T time steps, from a reset layer: T `Evaluate`s, T
    * backward steps, T `UpdateWeights`.
    * - The backward step k (k = 0 for the last time step) works on
    *   activation slot T-1-k and has delta slot k written into.
    * - The update of time step t reads delta slot T-1-t, the one written
    *   at backward step k = T-1-t, and works on activation slot t.
    * - Afterwards the delta cursor is back at its base and the activation
    *   cursor stands T slots on. */
  lemma CursorCycle(t: nat, k: nat, u: nat)
    requires k < t && u < t
    ensures Forwards(Cursor(0, 0), t) == Cursor(t, 0)
    ensures Backwards(Cursor(t, 0), k) == Cursor(t - k, k)
    ensures Backward(Backwards(Cursor(t, 0), k)).b == t - 1 - k
    ensures Backwards(Cursor(t, 0), t) == Cursor(0, t)
    ensures Updates(Cursor(0, t), u) == Cursor(u, t - u)
    ensures Update(Updates(Cursor(0, t), u)).delta == t - 1 - u
    ensures Updates(Cursor(0, t), t) == Cursor(t, 0)
  {
    ForwardsFrom(Cursor(0, 0), t);
    BackwardsFrom(Cursor(t, 0), k);
    BackwardsFrom(Cursor(t, 0), t);
    UpdatesFrom(Cursor(0, t), u);
    UpdatesFrom(Cursor(0, t), t);
  }

  // ---------------------------------------------------------------------
  // Boundary tests
  // ---------------------------------------------------------------------

  /** `cursor != base` for a cursor at slot `t`: false at slot 0, and also
    * whenever the stride is 0. */
  predicate PastBase(t: nat, offset: nat)
  {
    t * offset != 0
  }

  lemma PastBaseIff(t: nat, offset: nat)
    ensures PastBase(t, offset) <==> t != 0 && offset != 0
  {
  }

  // ---------------------------------------------------------------------
  // What a layer is built from
  // ---------------------------------------------------------------------

  /** The activation functions of rwthlm/identity.cc, tanh.cc, sigmoid.cc
    * and softmax.cc; their arithmetic is not part of the model. */
  datatype Activation = Identity | Tanh | Sigmoid | Softmax

  /** What the gradient kernels of one `UpdateWeights` call add, per named
    * accumulator (`"weights"`, `"bias"`, `"recurrent"`, ...). The values are
    * left out; the model only says where they go. */
  type Gradient = string -> seq<real>

  // ---------------------------------------------------------------------
  // Reset of an activation buffer
  // ---------------------------------------------------------------------

  /** The activation buffer after `Reset`: with `carry` (a dependent reset
    * of a recurrent layer) slot 1 is first copied over slot 0 and every
    * later slot is zeroed; otherwise every slot but the last is zeroed. */
  function ResetActivations(a: seq<real>, offset: nat, carry: bool): seq<real>
  {
    seq(|a|, k requires 0 <= k < |a| =>
      if carry then (if k < offset && offset + k < |a| then a[offset + k] else 0.0)
      else if k < |a| - offset then 0.0 else a[k])
  }

  /** Slot by slot for a buffer of `length` slots. */
  lemma ResetActivationsSlots(a: seq<real>, offset: nat, length: nat, carry: bool, t: nat, k: nat)
    requires |a| == offset * length && length >= 1 && (carry ==> length >= 2)
    requires t < length && k < offset
    ensures offset <= |a| && (carry ==> 2 * offset <= |a|)
    ensures t * offset + k < |a|
    ensures carry && t == 0 ==> ResetActivations(a, offset, carry)[k] == a[offset + k]
    ensures carry && t > 0 ==> ResetActivations(a, offset, carry)[t * offset + k] == 0.0
    ensures !carry && t + 1 < length ==> ResetActivations(a, offset, carry)[t * offset + k] == 0.0
    ensures !carry && t + 1 == length ==> ResetActivations(a, offset, carry)[t * offset + k] == a[t * offset + k]
  {
    SlotInBuffer(offset, length, t, k);
    SlotsOrdered(offset, 1, length);
    if carry {
      SlotsOrdered(offset, 2, length);
      if t > 0 {
        SlotsOrdered(offset, 1, t);
      }
    } else {
      assert |a| - offset == (length - 1) * offset;
      if t + 1 < length {
        SlotInBuffer(offset, length - 1, t, k);
      } else {
        assert t * offset == |a| - offset;
      }
    }
  }

  /** `Reset` of one activation buffer from its base (linear.cc:152-164,
    * lstm.cc:858-894): copy slot 1 to slot 0 when `carry`, then zero L-1
    * slots from the cursor, which is at slot 1 when `carry` and at slot 0
    * otherwise. */
  method ResetBuffer(a: array<real>, offset: nat, carry: bool)
    requires offset <= a.Length && (carry ==> 2 * offset <= a.Length)
    modifies a
    ensures a[..] == ResetActivations(old(a[..]), offset, carry)
  {
    ghost var before := a[..];
    if carry {
      CopyRange(a, offset, 0, offset);
      assert forall k :: 0 <= k < offset ==> a[k] == a[0..offset][k] == before[offset..2 * offset][k];
      ZeroRange(a, offset, a.Length - offset);
    } else {
      ZeroRange(a, 0, a.Length - offset);
    }
    assert forall k :: 0 <= k < a.Length ==> a[k] == ResetActivations(before, offset, carry)[k];
  }

  // ---------------------------------------------------------------------
  // Buffer operations (FastZero and FastCopy on one buffer)
  // ---------------------------------------------------------------------

  /** `FastZero(count, a + from)`. */
  method ZeroRange(a: array<real>, from: nat, count: nat)
    requires from + count <= a.Length
    modifies a
    ensures forall k :: 0 <= k < a.Length ==> a[k] == if from <= k < from + count then 0.0 else old(a[k])
  {
    forall k | from <= k < from + count {
      a[k] := 0.0;
    }
  }

  /** `FastZero` over the whole of each of several buffers. */
  method ZeroAll(buffers: seq<array<real>>)
    modifies set a | a in buffers
    ensures forall i :: 0 <= i < |buffers| ==> buffers[i][..] == Zeros(buffers[i].Length)
  {
    var i := 0;
    while i < |buffers|
      invariant i <= |buffers|
      invariant forall j :: 0 <= j < i ==> buffers[j][..] == Zeros(buffers[j].Length)
    {
      ZeroRange(buffers[i], 0, buffers[i].Length);
      assert buffers[i][..] == Zeros(buffers[i].Length);
      i := i + 1;
    }
  }

  /** `FastCopy(a + src, count, a + dst)` for ranges that do not overlap. */
  method CopyRange(a: array<real>, src: nat, dst: nat, count: nat)
    requires src + count <= a.Length && dst + count <= a.Length
    requires src + count <= dst || dst + count <= src
    modifies a
    ensures a[dst..dst + count] == old(a[src..src + count])
    ensures forall k :: 0 <= k < a.Length && !(dst <= k < dst + count) ==> a[k] == old(a[k])
  {
    forall k | 0 <= k < count {
      a[dst + k] := a[src + k];
    }
  }

  /** `FastCopy(values, count, a + dst)` from outside the buffer. */
  method CopyIn(a: array<real>, values: seq<real>, dst: nat)
    requires dst + |values| <= a.Length
    modifies a
    ensures a[dst..dst + |values|] == values
    ensures forall k :: 0 <= k < a.Length && !(dst <= k < dst + |values|) ==> a[k] == old(a[k])
  {
    forall k | 0 <= k < |values| {
      a[dst + k] := values[k];
    }
  }

  /** The base `Function::ComputeLogProbability` (function.h:91-98): only the
    * output layer can answer. */
  function BaseComputeLogProbability(): (r: Outcome<real>)
    ensures r.IsFatal()
  {
    Fatal("Function::ComputeLogProbability is not overridden")
  }
}
