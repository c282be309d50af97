/**
 * The class-factored output layer (rwthlm/output.cc, rwthlm/output.h).
 *
 * The vocabulary is partitioned into C classes. For every entry of a slice
 * the layer computes a distribution over the classes and, unless the
 * entry's class is a singleton (a shortlist word), a distribution over the
 * words of that class. One time step of the activation buffer holds the
 * class block, B rows of C reals, followed by the word block, B rows of M
 * reals (M the largest class size); the delta buffer has the same layout.
 * Word rows of class c start at row `word_offset_[c]` of the word tables,
 * which have one row per word outside the shortlist.
 *
 * The numeric work of the forward pass (matrix products and the softmax)
 * is left out; the model keeps the layout, the four cursors, the one-hot
 * targets `ComputeDelta` writes and the softmax derivative it applies to
 * them, the structure of `ComputeLogProbability`, the momentum protocol
 * and the serialised form.
 */
module Outputs {
  import opened Common
  import opened Functions
  import opened Params
  import opened Vocab

  /** The buffer layout: C classes, M word slots per entry, B entries, L steps. */
  datatype Layout = Layout(classes: nat, maxClassSize: nat, batch: nat, length: nat)
  {
    /** `GetOffset` as overridden (output.h:59-61): (C + M) * B. */
    function Stride(): nat
    {
      (classes + maxClassSize) * batch
    }

    /** The size of `class_b_` and `class_delta_` (output.cc:40-43). */
    function BufferSize(): nat
    {
      Stride() * length
    }

    /** Where `word_b_` starts inside `class_b_` (output.cc:49-50). */
    function WordBase(): nat
    {
      classes * batch
    }

    /** Class slot c of entry i at step t. */
    function ClassSlot(t: nat, i: nat, c: nat): nat
    {
      t * Stride() + i * classes + c
    }

    /** Word slot k of entry i at step t. */
    function WordSlot(t: nat, i: nat, k: nat): nat
    {
      t * Stride() + WordBase() + i * maxClassSize + k
    }
  }

  function LayoutOf(v: Vocabulary, dims: Dims): Layout
  {
    Layout(v.NumClasses(), v.maxClassSize, dims.batch, dims.length)
  }

  /** Rows of the word tables: one per word outside the shortlist (output.cc:36-37). */
  function WordRows(v: Vocabulary): nat
  {
    if v.shortlistSize <= v.Size() then v.Size() - v.shortlistSize else 0
  }

  /** The output dimension passed to `Function` (output.cc:26-31): V + C - shortlist. */
  function OutputDims(v: Vocabulary, input: nat, batch: nat, length: nat): (d: Dims)
    requires v.WellFormed()
    ensures d.output == WordRows(v) + v.NumClasses()
    ensures d.output == v.Size() + v.NumClasses() - v.shortlistSize
  {
    Dims(input, WordRows(v) + v.NumClasses(), batch, length)
  }

  lemma RowOfSlot(n: nat, i: nat, c: nat, j: nat, d: nat)
    requires c < n && d < n && i * n + c == j * n + d
    ensures i == j && c == d
  {
    if i < j {
      MulSucc(i, n);
      MulMonotone(i + 1, j, n);
    } else if j < i {
      MulSucc(j, n);
      MulMonotone(j + 1, i, n);
    }
  }

  /** Row i of n-wide rows, column x, lies before row `rows` when i < rows. */
  lemma RowBound(i: nat, n: nat, rows: nat, x: nat)
    requires i < rows && x < n
    ensures i * n + x < rows * n
  {
    MulSucc(i, n);
    MulMonotone(i + 1, rows, n);
  }

  /** The step t of stride s ends inside a buffer of `length` steps. */
  lemma StepInBuffer(t: nat, s: nat, length: nat)
    requires t < length
    ensures t * s + s <= s * length
  {
    MulSucc(t, s);
    MulMonotone(t + 1, length, s);
  }

  /** Entry i's class slots lie in the class block of step t, its word
    * slots in the word block of the same step, and with t < L both lie
    * inside the buffer. */
  lemma SlotsInStep(l: Layout, t: nat, i: nat, c: nat, k: nat)
    requires i < l.batch && c < l.classes && k < l.maxClassSize
    ensures t * l.Stride() <= l.ClassSlot(t, i, c) < t * l.Stride() + l.WordBase()
    ensures t * l.Stride() + l.WordBase() <= l.WordSlot(t, i, k) < t * l.Stride() + l.Stride()
    ensures t < l.length ==> l.ClassSlot(t, i, c) < l.BufferSize() && l.WordSlot(t, i, k) < l.BufferSize()
  {
    var C, M, B := l.classes, l.maxClassSize, l.batch;
    RowBound(i, C, B, c);
    RowBound(i, M, B, k);
    assert l.WordBase() == B * C;
    assert l.Stride() == B * C + B * M by {
      assert (C + M) * B == C * B + M * B;
    }
    if t < l.length {
      StepInBuffer(t, l.Stride(), l.length);
    }
  }

  /** Different entries never share a class slot or a word slot, and no
    * class slot is a word slot. */
  lemma SlotsDisjoint(l: Layout, t: nat, i: nat, c: nat, k: nat, j: nat, d: nat, h: nat)
    requires i < l.batch && c < l.classes && k < l.maxClassSize
    requires j < l.batch && d < l.classes && h < l.maxClassSize
    ensures l.ClassSlot(t, i, c) == l.ClassSlot(t, j, d) <==> i == j && c == d
    ensures l.WordSlot(t, i, k) == l.WordSlot(t, j, h) <==> i == j && k == h
    ensures l.ClassSlot(t, i, c) != l.WordSlot(t, j, h)
  {
    if l.ClassSlot(t, i, c) == l.ClassSlot(t, j, d) {
      RowOfSlot(l.classes, i, c, j, d);
    }
    if l.WordSlot(t, i, k) == l.WordSlot(t, j, h) {
      RowOfSlot(l.maxClassSize, i, k, j, h);
    }
    SlotsInStep(l, t, i, c, h);
    SlotsInStep(l, t, j, d, h);
  }

  // ---------------------------------------------------------------------
  // The word-offset table (output.cc:54-61)
  // ---------------------------------------------------------------------

  /** The constructor's loop: `word_offset_[c]` is the running sum of the
    * sizes of the earlier non-singleton classes. */
  method BuildWordOffsets(sizes: seq<nat>) returns (offsets: seq<nat>)
    ensures |offsets| == |sizes|
    ensures forall c :: 0 <= c < |sizes| ==> offsets[c] == WordOffset(sizes, c)
  {
    offsets := [];
    var sum := 0;
    for i := 0 to |sizes|
      invariant |offsets| == i && sum == WordOffset(sizes, i)
      invariant forall c {:trigger offsets[c]} :: 0 <= c < i ==> offsets[c] == WordOffset(sizes, c)
    {
      offsets := offsets + [sum];
      if sizes[i] != 1 {
        sum := sum + sizes[i];
      }
    }
  }

  /** The table starts at 0, never decreases, and a singleton class adds
    * no word rows. */
  lemma WordOffsetSteps(sizes: seq<nat>, c: nat)
    requires c < |sizes|
    ensures WordOffset(sizes, 0) == 0
    ensures WordOffset(sizes, c) <= WordOffset(sizes, c + 1)
    ensures WordOffset(sizes, c + 1) == WordOffset(sizes, c) + (if sizes[c] == 1 then 0 else sizes[c])
  {
  }

  // ---------------------------------------------------------------------
  // Targets of the one-hot deltas
  // ---------------------------------------------------------------------

  /** The layout matches the vocabulary. */
  predicate Fits(v: Vocabulary, l: Layout)
  {
    l.classes == v.NumClasses() && l.maxClassSize == v.maxClassSize
  }

  ghost predicate ValidSlice(v: Vocabulary, slice: seq<nat>)
  {
    forall i :: 0 <= i < |slice| ==> slice[i] < v.Size()
  }

  /** Is word w handled at word level, i.e. is its class not a singleton? */
  predicate WordLevel(v: Vocabulary, w: nat)
    requires v.WellFormed() && w < v.Size()
  {
    v.classSizes[v.classOf[w]] != 1
  }

  /** The slot of word w within its class (output.cc:132-133, 356-358). */
  function WithinClass(v: Vocabulary, w: nat): (k: nat)
    requires v.WellFormed() && w < v.Size() && v.classSizes[v.classOf[w]] != 1
    ensures k < v.classSizes[v.classOf[w]] && k < v.maxClassSize
    ensures k == w - WordOffset(v.classSizes, v.classOf[w]) - v.shortlistSize
  {
    WordSlotInRange(v, w);
    w - WordOffset(v.classSizes, v.classOf[w]) - v.shortlistSize
  }

  /** The delta slots `ComputeDelta` sets to 1 for entry i with word w. */
  ghost function EntryTargets(v: Vocabulary, l: Layout, t: nat, i: nat, w: nat): set<nat>
    requires v.WellFormed() && w < v.Size()
  {
    var c := v.classOf[w];
    {l.ClassSlot(t, i, c)} + if v.classSizes[c] != 1 then {l.WordSlot(t, i, WithinClass(v, w))} else {}
  }

  /** The targets of the first n entries. */
  ghost function Targets(v: Vocabulary, l: Layout, t: nat, slice: seq<nat>, n: nat): set<nat>
    requires v.WellFormed() && ValidSlice(v, slice) && n <= |slice|
  {
    if n == 0 then {} else Targets(v, l, t, slice, n - 1) + EntryTargets(v, l, t, n - 1, slice[n - 1])
  }

  /** Which of entry i's slots are targets of entry j. */
  lemma EntryTargetsAt(v: Vocabulary, l: Layout, t: nat, j: nat, w: nat, i: nat, c: nat, k: nat)
    requires v.WellFormed() && Fits(v, l) && w < v.Size()
    requires i < l.batch && j < l.batch && c < l.classes && k < l.maxClassSize
    ensures l.ClassSlot(t, i, c) in EntryTargets(v, l, t, j, w) <==> i == j && c == v.classOf[w]
    ensures l.WordSlot(t, i, k) in EntryTargets(v, l, t, j, w) <==> i == j && WordLevel(v, w) && k == WithinClass(v, w)
  {
    var d := v.classOf[w];
    var cs, ws := l.ClassSlot(t, i, c), l.WordSlot(t, i, k);
    if WordLevel(v, w) {
      var h := WithinClass(v, w);
      assert EntryTargets(v, l, t, j, w) == {l.ClassSlot(t, j, d), l.WordSlot(t, j, h)};
      SlotsDisjoint(l, t, i, c, k, j, d, h);
      SlotsDisjoint(l, t, j, d, h, i, c, k);
    } else {
      assert EntryTargets(v, l, t, j, w) == {l.ClassSlot(t, j, d)};
      SlotsDisjoint(l, t, i, c, k, j, d, 0);
      SlotsDisjoint(l, t, j, d, 0, i, c, k);
    }
  }

  /** One-hot targets: in entry i's class row the only target is the class
    * of its word, and in its word row the only target is the word's slot
    * within that class, present only when the class is not a singleton. */
  lemma {:induction false} TargetsOneHot(v: Vocabulary, l: Layout, t: nat, slice: seq<nat>, n: nat,
                                         i: nat, c: nat, k: nat)
    requires v.WellFormed() && Fits(v, l) && ValidSlice(v, slice) && n <= |slice| <= l.batch
    requires i < l.batch && c < l.classes && k < l.maxClassSize
    ensures l.ClassSlot(t, i, c) in Targets(v, l, t, slice, n) <==> i < n && c == v.classOf[slice[i]]
    ensures l.WordSlot(t, i, k) in Targets(v, l, t, slice, n) <==>
      i < n && WordLevel(v, slice[i]) && k == WithinClass(v, slice[i])
  {
    if n > 0 {
      TargetsOneHot(v, l, t, slice, n - 1, i, c, k);
      EntryTargetsAt(v, l, t, n - 1, slice[n - 1], i, c, k);
    }
  }

  /** Every target lies inside the buffer of a step t < L. */
  lemma {:induction false} TargetsInBuffer(v: Vocabulary, l: Layout, t: nat, slice: seq<nat>, n: nat, p: nat)
    requires v.WellFormed() && Fits(v, l) && ValidSlice(v, slice) && n <= |slice| <= l.batch
    requires t < l.length && p in Targets(v, l, t, slice, n)
    ensures p < l.BufferSize()
  {
    var w := slice[n - 1];
    if p in EntryTargets(v, l, t, n - 1, w) {
      if WordLevel(v, w) {
        SlotsInStep(l, t, n - 1, v.classOf[w], WithinClass(v, w));
      } else {
        SlotsInStep(l, t, n - 1, v.classOf[w], 0);
      }
    } else {
      TargetsInBuffer(v, l, t, slice, n - 1, p);
    }
  }

  /** The writes of `ComputeDelta` (output.cc:126-139) into the delta slots
    * of step t: a 1 at each entry's class and, outside singleton classes,
    * at its word. `DeriveSlice` then applies the activation's derivative. */
  method MarkTargets(a: array<real>, v: Vocabulary, l: Layout, t: nat, slice: seq<nat>)
    requires v.WellFormed() && Fits(v, l) && ValidSlice(v, slice) && |slice| <= l.batch
    requires a.Length == l.BufferSize() && t < l.length
    modifies a
    ensures forall p :: 0 <= p < a.Length ==>
      a[p] == if p in Targets(v, l, t, slice, |slice|) then 1.0 else old(a[p])
  {
    var i := 0;
    while i < |slice|
      invariant i <= |slice|
      invariant forall p :: 0 <= p < a.Length ==>
        a[p] == if p in Targets(v, l, t, slice, i) then 1.0 else old(a[p])
    {
      var w := slice[i];
      var c := v.GetClass(w);
      assert l.ClassSlot(t, i, c) < a.Length by {
        SlotsInStep(l, t, i, c, 0);
      }
      a[l.ClassSlot(t, i, c)] := 1.0;
      if v.GetClassSize(c) != 1 {
        var k := WithinClass(v, w);
        assert l.WordSlot(t, i, k) < a.Length by {
          SlotsInStep(l, t, i, c, k);
        }
        a[l.WordSlot(t, i, k)] := 1.0;
      }
      var n := i + 1;
      assert Targets(v, l, t, slice, n) == Targets(v, l, t, slice, i) + EntryTargets(v, l, t, i, w);
      i := n;
    }
  }

  /** Is p one of the `count` slots from `from` on? */
  predicate InSpan(p: nat, from: nat, count: nat)
  {
    from <= p < from + count
  }

  /** Is p among the word slots the derivative rewrites for the first n
    * entries: the first class-size slots of the word row of each entry
    * whose class is not a singleton (output.cc:131-138)? */
  ghost predicate WordDerived(v: Vocabulary, l: Layout, t: nat, slice: seq<nat>, n: nat, p: nat)
    requires v.WellFormed() && ValidSlice(v, slice) && n <= |slice|
  {
    if n == 0 then false
    else
      var size := v.classSizes[v.classOf[slice[n - 1]]];
      WordDerived(v, l, t, slice, n - 1, p) || (size != 1 && InSpan(p, l.WordSlot(t, n - 1, 0), size))
  }

  /** Is p a delta slot of step t that `ComputeDelta` passes through the
    * derivative (output.cc:134-141): a class row of one of the slice's
    * entries, or one of their word rows? */
  ghost predicate Derived(v: Vocabulary, l: Layout, t: nat, slice: seq<nat>, p: nat)
    requires v.WellFormed() && ValidSlice(v, slice)
  {
    InSpan(p, l.ClassSlot(t, 0, 0), l.classes * |slice|) || WordDerived(v, l, t, slice, |slice|, p)
  }

  /** `Softmax::MultiplyDerivative` (softmax.cc:34-38), the output layer's
    * activation (net.cc:248): each of `count` delta slots from `at` becomes
    * the activation at the same place from `bAt` minus the delta. */
  method MultiplyDerivative(b: array<real>, a: array<real>, bAt: nat, at: nat, count: nat)
    requires a != b && at + count <= a.Length && bAt + count <= b.Length
    modifies a
    ensures forall p :: 0 <= p < a.Length ==>
      a[p] == if InSpan(p, at, count) then b[p - at + bAt] - old(a[p]) else old(a[p])
  {
    for j := 0 to count
      invariant forall p :: 0 <= p < a.Length ==>
        a[p] == if InSpan(p, at, j) then b[p - at + bAt] - old(a[p]) else old(a[p])
    {
      a[at + j] := b[bAt + j] - a[at + j];
    }
  }

  /** The word rows of the first n entries of step t lie between the start
    * of entry 0's word row and the start of entry n's. */
  lemma {:induction false} WordDerivedBelow(v: Vocabulary, l: Layout, t: nat, slice: seq<nat>, n: nat, p: nat)
    requires v.WellFormed() && Fits(v, l) && ValidSlice(v, slice) && n <= |slice|
    requires WordDerived(v, l, t, slice, n, p)
    ensures l.WordSlot(t, 0, 0) <= p < l.WordSlot(t, n, 0)
  {
    var m := n - 1;
    MulSucc(m, l.maxClassSize);
    assert l.WordSlot(t, n, 0) == l.WordSlot(t, m, 0) + l.maxClassSize;
    assert l.WordSlot(t, 0, 0) <= l.WordSlot(t, m, 0);
    if WordDerived(v, l, t, slice, m, p) {
      WordDerivedBelow(v, l, t, slice, m, p);
    } else {
      assert v.classSizes[v.classOf[slice[m]]] <= l.maxClassSize;
    }
  }

  /** Word slot k of entry i is rewritten exactly when the entry is among
    * the first n, its class is not a singleton and k is inside the class. */
  lemma {:induction false} WordDerivedAt(v: Vocabulary, l: Layout, t: nat, slice: seq<nat>, n: nat, i: nat, k: nat)
    requires v.WellFormed() && Fits(v, l) && ValidSlice(v, slice) && n <= |slice|
    requires k < l.maxClassSize
    ensures WordDerived(v, l, t, slice, n, l.WordSlot(t, i, k)) <==>
      i < n && WordLevel(v, slice[i]) && k < v.classSizes[v.classOf[slice[i]]]
  {
    if n > 0 {
      WordDerivedAt(v, l, t, slice, n - 1, i, k);
      var size := v.classSizes[v.classOf[slice[n - 1]]];
      var p := l.WordSlot(t, i, k);
      if size != 1 && InSpan(p, l.WordSlot(t, n - 1, 0), size) {
        var h := p - l.WordSlot(t, n - 1, 0);
        assert (n - 1) * l.maxClassSize + h == i * l.maxClassSize + k;
        RowOfSlot(l.maxClassSize, n - 1, h, i, k);
      }
    }
  }

  /** No word row the derivative rewrites reaches into the class block. */
  lemma WordDerivedNotClass(v: Vocabulary, l: Layout, t: nat, slice: seq<nat>, p: nat)
    requires v.WellFormed() && Fits(v, l) && ValidSlice(v, slice) && |slice| <= l.batch
    requires WordDerived(v, l, t, slice, |slice|, p)
    ensures l.ClassSlot(t, 0, 0) + l.classes * |slice| <= p
  {
    WordDerivedBelow(v, l, t, slice, |slice|, p);
    MulMonotone(|slice|, l.batch, l.classes);
  }

  /** Class slot c of entry i is rewritten exactly when the entry is in the
    * slice; word slot k of entry i exactly when the entry is in the slice,
    * its class is not a singleton and k is inside the class. */
  lemma DerivedAt(v: Vocabulary, l: Layout, t: nat, slice: seq<nat>, i: nat, c: nat, k: nat)
    requires v.WellFormed() && Fits(v, l) && ValidSlice(v, slice) && |slice| <= l.batch
    requires i < l.batch && c < l.classes && k < l.maxClassSize
    ensures Derived(v, l, t, slice, l.ClassSlot(t, i, c)) <==> i < |slice|
    ensures Derived(v, l, t, slice, l.WordSlot(t, i, k)) <==>
      i < |slice| && WordLevel(v, slice[i]) && k < v.classSizes[v.classOf[slice[i]]]
  {
    if i < |slice| {
      RowBound(i, l.classes, |slice|, c);
    } else {
      MulMonotone(|slice|, i, l.classes);
    }
    SlotsInStep(l, t, i, c, k);
    MulMonotone(|slice|, l.batch, l.classes);
    if WordDerived(v, l, t, slice, |slice|, l.ClassSlot(t, i, c)) {
      WordDerivedBelow(v, l, t, slice, |slice|, l.ClassSlot(t, i, c));
    }
    WordDerivedAt(v, l, t, slice, |slice|, i, k);
  }

  /** Every target of the slice is rewritten by the derivative. */
  lemma {:induction false} TargetsDerived(v: Vocabulary, l: Layout, t: nat, slice: seq<nat>, n: nat, p: nat)
    requires v.WellFormed() && Fits(v, l) && ValidSlice(v, slice) && n <= |slice| <= l.batch
    requires p in Targets(v, l, t, slice, n)
    ensures Derived(v, l, t, slice, p)
  {
    var i, w := n - 1, slice[n - 1];
    var c := v.classOf[w];
    if p !in EntryTargets(v, l, t, i, w) {
      TargetsDerived(v, l, t, slice, n - 1, p);
    } else if WordLevel(v, w) && p == l.WordSlot(t, i, WithinClass(v, w)) {
      DerivedAt(v, l, t, slice, i, c, WithinClass(v, w));
    } else {
      DerivedAt(v, l, t, slice, i, c, 0);
    }
  }

  /** The slots a stage of the derivative has covered: all of `Derived`
    * when `full`, otherwise the word rows of the first n entries. */
  ghost predicate Covered(v: Vocabulary, l: Layout, t: nat, slice: seq<nat>, n: nat, full: bool, p: nat)
    requires v.WellFormed() && ValidSlice(v, slice) && n <= |slice|
  {
    if full then Derived(v, l, t, slice, p) else WordDerived(v, l, t, slice, n, p)
  }

  /** Slot p of x is slot p of x0, with the derivative against activation
    * step tB applied when `derived`. */
  ghost predicate SlotDerived(x: seq<real>, x0: seq<real>, bs: seq<real>, l: Layout, tB: nat, tD: nat, derived: bool, p: nat)
    requires p < |x| == |x0|
  {
    if derived
    then tD * l.Stride() <= p && p - tD * l.Stride() + tB * l.Stride() < |bs|
         && x[p] == bs[p - tD * l.Stride() + tB * l.Stride()] - x0[p]
    else x[p] == x0[p]
  }

  /** x is x0 with the derivative applied to the slots `Covered` names. */
  ghost predicate DerivedFrom(x: seq<real>, x0: seq<real>, bs: seq<real>, v: Vocabulary, l: Layout, tB: nat, tD: nat,
                              slice: seq<nat>, n: nat, full: bool)
    requires v.WellFormed() && ValidSlice(v, slice) && n <= |slice|
  {
    |x| == |x0| &&
    forall p :: 0 <= p < |x| ==> SlotDerived(x, x0, bs, l, tB, tD, Covered(v, l, tD, slice, n, full, p), p)
  }

  /** y is x with the derivative applied to `count` slots from `at`,
    * reading activations from `bAt`. */
  ghost predicate DerivedSpan(y: seq<real>, x: seq<real>, bs: seq<real>, bAt: nat, at: nat, count: nat)
    requires at + count <= |x| && bAt + count <= |bs|
  {
    |y| == |x| &&
    forall p :: 0 <= p < |y| ==> y[p] == if InSpan(p, at, count) then bs[p - at + bAt] - x[p] else x[p]
  }

  /** A slot a derivative step leaves alone keeps what it had. */
  lemma SlotKept(x: seq<real>, y: seq<real>, x0: seq<real>, bs: seq<real>, l: Layout, tB: nat, tD: nat, derived: bool, p: nat)
    requires p < |x| == |y| == |x0| && y[p] == x[p]
    requires SlotDerived(x, x0, bs, l, tB, tD, derived, p)
    ensures SlotDerived(y, x0, bs, l, tB, tD, derived, p)
  {
  }

  /** A slot a derivative step reaches for the first time is derived. */
  lemma SlotReached(x: seq<real>, y: seq<real>, x0: seq<real>, bs: seq<real>, l: Layout, tB: nat, tD: nat,
                    at: nat, bAt: nat, p: nat)
    requires p < |x| == |y| == |x0| && at <= p
    requires tD * l.Stride() <= at && p < tD * l.Stride() + l.Stride() && tB * l.Stride() + l.Stride() <= |bs|
    requires bAt == at - tD * l.Stride() + tB * l.Stride()
    requires x[p] == x0[p] && p - at + bAt < |bs| && y[p] == bs[p - at + bAt] - x[p]
    ensures SlotDerived(y, x0, bs, l, tB, tD, true, p)
  {
  }

  /** One slot of `WordRowDerived`. */
  lemma WordRowSlot(x: seq<real>, y: seq<real>, x0: seq<real>, bs: seq<real>, v: Vocabulary, l: Layout,
                    tB: nat, tD: nat, slice: seq<nat>, i: nat, p: nat)
    requires v.WellFormed() && Fits(v, l) && ValidSlice(v, slice) && i < |slice| <= l.batch
    requires |x| == |bs| == l.BufferSize() && tB < l.length && tD < l.length
    requires DerivedFrom(x, x0, bs, v, l, tB, tD, slice, i, false)
    requires var size := v.classSizes[v.classOf[slice[i]]];
      if size == 1 then y == x
      else l.WordSlot(tD, i, 0) + size <= |x| && l.WordSlot(tB, i, 0) + size <= |bs|
           && DerivedSpan(y, x, bs, l.WordSlot(tB, i, 0), l.WordSlot(tD, i, 0), size)
    requires p < |y|
    ensures |y| == |x0| && SlotDerived(y, x0, bs, l, tB, tD, WordDerived(v, l, tD, slice, i + 1, p), p)
  {
    var c := v.classOf[slice[i]];
    var size, at := v.classSizes[c], l.WordSlot(tD, i, 0);
    var before := WordDerived(v, l, tD, slice, i, p);
    assert SlotDerived(x, x0, bs, l, tB, tD, Covered(v, l, tD, slice, i, false, p), p);
    if size == 1 {
      SlotKept(x, y, x0, bs, l, tB, tD, before, p);
    } else {
      assert y[p] == if InSpan(p, at, size) then bs[p - at + l.WordSlot(tB, i, 0)] - x[p] else x[p];
      if before {
        WordDerivedBelow(v, l, tD, slice, i, p);
        SlotKept(x, y, x0, bs, l, tB, tD, before, p);
      } else if InSpan(p, at, size) {
        SlotsInStep(l, tD, i, c, size - 1);
        StepInBuffer(tB, l.Stride(), l.length);
        SlotReached(x, y, x0, bs, l, tB, tD, at, l.WordSlot(tB, i, 0), p);
      } else {
        SlotKept(x, y, x0, bs, l, tB, tD, before, p);
      }
    }
  }

  /** Deriving entry i's word row extends the derivative over the word rows
    * of the first i entries to the first i + 1. */
  lemma WordRowDerived(x: seq<real>, y: seq<real>, x0: seq<real>, bs: seq<real>, v: Vocabulary, l: Layout,
                       tB: nat, tD: nat, slice: seq<nat>, i: nat)
    requires v.WellFormed() && Fits(v, l) && ValidSlice(v, slice) && i < |slice| <= l.batch
    requires |x| == |bs| == l.BufferSize() && tB < l.length && tD < l.length
    requires DerivedFrom(x, x0, bs, v, l, tB, tD, slice, i, false)
    requires var size := v.classSizes[v.classOf[slice[i]]];
      if size == 1 then y == x
      else l.WordSlot(tD, i, 0) + size <= |x| && l.WordSlot(tB, i, 0) + size <= |bs|
           && DerivedSpan(y, x, bs, l.WordSlot(tB, i, 0), l.WordSlot(tD, i, 0), size)
    ensures DerivedFrom(y, x0, bs, v, l, tB, tD, slice, i + 1, false)
  {
    var n := i + 1;
    forall p | 0 <= p < |y|
      ensures |y| == |x0| && SlotDerived(y, x0, bs, l, tB, tD, Covered(v, l, tD, slice, n, false, p), p)
    {
      WordRowSlot(x, y, x0, bs, v, l, tB, tD, slice, i, p);
    }
  }

  /** Deriving the class rows of the slice after its word rows completes
    * the derivative over every slot `Derived` names. */
  lemma ClassRowsDerived(x: seq<real>, y: seq<real>, x0: seq<real>, bs: seq<real>, v: Vocabulary, l: Layout,
                         tB: nat, tD: nat, slice: seq<nat>)
    requires v.WellFormed() && Fits(v, l) && ValidSlice(v, slice) && |slice| <= l.batch
    requires |x| == |bs| == l.BufferSize() && tB < l.length && tD < l.length
    requires DerivedFrom(x, x0, bs, v, l, tB, tD, slice, |slice|, false)
    requires l.ClassSlot(tD, 0, 0) + l.classes * |slice| <= |x| && l.ClassSlot(tB, 0, 0) + l.classes * |slice| <= |bs|
    requires DerivedSpan(y, x, bs, l.ClassSlot(tB, 0, 0), l.ClassSlot(tD, 0, 0), l.classes * |slice|)
    ensures DerivedFrom(y, x0, bs, v, l, tB, tD, slice, |slice|, true)
  {
    forall p | 0 <= p < |y|
      ensures SlotDerived(y, x0, bs, l, tB, tD, Covered(v, l, tD, slice, |slice|, true, p), p)
    {
      assert SlotDerived(x, x0, bs, l, tB, tD, Covered(v, l, tD, slice, |slice|, false, p), p);
      if WordDerived(v, l, tD, slice, |slice|, p) {
        WordDerivedNotClass(v, l, tD, slice, p);
      }
    }
  }

  /** The derivative over the slice at delta step tD, reading activation
    * step tB (output.cc:131-141): the word row of every entry outside a
    * singleton class, then the class rows of all entries. The word rows go
    * first here; the source interleaves them with the marking in a
    * parallel loop, and each touches only its own entry's row. */
  method DeriveSlice(b: array<real>, a: array<real>, v: Vocabulary, l: Layout, tB: nat, tD: nat, slice: seq<nat>)
    requires v.WellFormed() && Fits(v, l) && ValidSlice(v, slice) && |slice| <= l.batch
    requires a != b && a.Length == b.Length == l.BufferSize() && tB < l.length && tD < l.length
    modifies a
    ensures DerivedFrom(a[..], old(a[..]), b[..], v, l, tB, tD, slice, |slice|, true)
  {
    ghost var a0 := a[..];
    for i := 0 to |slice|
      invariant DerivedFrom(a[..], a0, b[..], v, l, tB, tD, slice, i, false)
    {
      ghost var x := a[..];
      DeriveWordRow(b, a, v, l, tB, tD, slice, i);
      WordRowDerived(x, a[..], a0, b[..], v, l, tB, tD, slice, i);
    }
    ghost var x := a[..];
    DeriveClassRows(b, a, v, l, tB, tD, slice);
    ClassRowsDerived(x, a[..], a0, b[..], v, l, tB, tD, slice);
  }

  /** The derivative over entry i's word row (output.cc:134-138), skipped
    * for a singleton class. */
  method DeriveWordRow(b: array<real>, a: array<real>, v: Vocabulary, l: Layout, tB: nat, tD: nat, slice: seq<nat>, i: nat)
    requires v.WellFormed() && Fits(v, l) && ValidSlice(v, slice) && i < |slice| <= l.batch
    requires a != b && a.Length == b.Length == l.BufferSize() && tB < l.length && tD < l.length
    modifies a
    ensures var size := v.classSizes[v.classOf[slice[i]]];
      if size == 1 then a[..] == old(a[..])
      else l.WordSlot(tD, i, 0) + size <= a.Length && l.WordSlot(tB, i, 0) + size <= b.Length
           && DerivedSpan(a[..], old(a[..]), b[..], l.WordSlot(tB, i, 0), l.WordSlot(tD, i, 0), size)
  {
    var c := v.GetClass(slice[i]);
    var size := v.GetClassSize(c);
    if size != 1 {
      SlotsInStep(l, tD, i, c, size - 1);
      SlotsInStep(l, tB, i, c, size - 1);
      MultiplyDerivative(b, a, l.WordSlot(tB, i, 0), l.WordSlot(tD, i, 0), size);
    }
  }

  /** The derivative over the class rows of the whole slice
    * (output.cc:141), which lie at the head of the step. */
  method DeriveClassRows(b: array<real>, a: array<real>, v: Vocabulary, l: Layout, tB: nat, tD: nat, slice: seq<nat>)
    requires v.WellFormed() && Fits(v, l) && ValidSlice(v, slice) && |slice| <= l.batch
    requires a != b && a.Length == b.Length == l.BufferSize() && tB < l.length && tD < l.length
    modifies a
    ensures l.ClassSlot(tD, 0, 0) + l.classes * |slice| <= a.Length && l.ClassSlot(tB, 0, 0) + l.classes * |slice| <= b.Length
    ensures DerivedSpan(a[..], old(a[..]), b[..], l.ClassSlot(tB, 0, 0), l.ClassSlot(tD, 0, 0), l.classes * |slice|)
  {
    var rows := l.classes * |slice|;
    MulMonotone(|slice|, l.batch, l.classes);
    StepInBuffer(tD, l.Stride(), l.length);
    StepInBuffer(tB, l.Stride(), l.length);
    assert l.Stride() == l.WordBase() + l.maxClassSize * l.batch by {
      assert (l.classes + l.maxClassSize) * l.batch == l.classes * l.batch + l.maxClassSize * l.batch;
    }
    MultiplyDerivative(b, a, l.ClassSlot(tB, 0, 0), l.ClassSlot(tD, 0, 0), rows);
  }

  /** x with a 1 at each target of the slice at step t (`MarkTargets`). */
  ghost function Marked(x: seq<real>, v: Vocabulary, l: Layout, t: nat, slice: seq<nat>): (m: seq<real>)
    requires v.WellFormed() && ValidSlice(v, slice)
    ensures |m| == |x|
    ensures forall p :: 0 <= p < |x| ==> m[p] == if p in Targets(v, l, t, slice, |slice|) then 1.0 else x[p]
  {
    seq(|x|, p requires 0 <= p < |x| => if p in Targets(v, l, t, slice, |slice|) then 1.0 else x[p])
  }

  /** After a reset, each class row of the slice holds the class
    * activations minus the one-hot class of its word: the error signal of
    * softmax with cross-entropy. */
  lemma ClassRowAfterReset(a0: seq<real>, a: seq<real>, bs: seq<real>, v: Vocabulary, l: Layout, tB: nat, tD: nat, slice: seq<nat>,
                           i: nat, c: nat)
    requires v.WellFormed() && Fits(v, l) && ValidSlice(v, slice) && |slice| <= l.batch
    requires |a| == |bs| == l.BufferSize() && tB < l.length && tD < l.length
    requires |a0| == |a| && forall p :: 0 <= p < |a0| ==> a0[p] == 0.0
    requires DerivedFrom(a, Marked(a0, v, l, tD, slice), bs, v, l, tB, tD, slice, |slice|, true)
    requires i < |slice| && c < l.classes
    ensures l.ClassSlot(tD, i, c) < |a| && l.ClassSlot(tB, i, c) < |bs|
    ensures a[l.ClassSlot(tD, i, c)] == bs[l.ClassSlot(tB, i, c)] - if c == v.classOf[slice[i]] then 1.0 else 0.0
  {
    assert 0 < l.maxClassSize by {
      assert 1 <= v.classSizes[c] <= v.maxClassSize;
    }
    SlotsInStep(l, tD, i, c, 0);
    SlotsInStep(l, tB, i, c, 0);
    TargetsOneHot(v, l, tD, slice, |slice|, i, c, 0);
    DerivedAt(v, l, tD, slice, i, c, 0);
    var p := l.ClassSlot(tD, i, c);
    assert SlotDerived(a, Marked(a0, v, l, tD, slice), bs, l, tB, tD, Covered(v, l, tD, slice, |slice|, true, p), p);
  }

  /** After a reset, the word row of each entry outside a singleton class
    * holds, up to the class's size, the word activations minus the one-hot
    * slot of its word; every other word slot stays zero. */
  lemma WordRowAfterReset(a0: seq<real>, a: seq<real>, bs: seq<real>, v: Vocabulary, l: Layout, tB: nat, tD: nat, slice: seq<nat>,
                          i: nat, k: nat)
    requires v.WellFormed() && Fits(v, l) && ValidSlice(v, slice) && |slice| <= l.batch
    requires |a| == |bs| == l.BufferSize() && tB < l.length && tD < l.length
    requires |a0| == |a| && forall p :: 0 <= p < |a0| ==> a0[p] == 0.0
    requires DerivedFrom(a, Marked(a0, v, l, tD, slice), bs, v, l, tB, tD, slice, |slice|, true)
    requires i < |slice| && k < l.maxClassSize
    ensures l.WordSlot(tD, i, k) < |a| && l.WordSlot(tB, i, k) < |bs|
    ensures a[l.WordSlot(tD, i, k)] ==
      if WordLevel(v, slice[i]) && k < v.classSizes[v.classOf[slice[i]]]
      then bs[l.WordSlot(tB, i, k)] - if k == WithinClass(v, slice[i]) then 1.0 else 0.0
      else 0.0
  {
    var c := v.classOf[slice[i]];
    SlotsInStep(l, tD, i, c, k);
    SlotsInStep(l, tB, i, c, k);
    TargetsOneHot(v, l, tD, slice, |slice|, i, c, k);
    DerivedAt(v, l, tD, slice, i, c, k);
    var p := l.WordSlot(tD, i, k);
    assert SlotDerived(a, Marked(a0, v, l, tD, slice), bs, l, tB, tD, Covered(v, l, tD, slice, |slice|, true, p), p);
  }

  // ---------------------------------------------------------------------
  // Parameters
  // ---------------------------------------------------------------------

  /** Sizes of the parameter arrays (output.cc:44-52). */
  datatype OutputShape = OutputShape(classWeights: nat, classes: nat, wordWeights: nat, words: nat)
  {
    /** The reals `Read` consumes and `Write` emits. */
    function SerializedSize(useBias: bool): nat
    {
      2 * classWeights + wordWeights + if useBias then 2 * classes + words else 0
    }

    /** The reals `RandomizeWeights` draws. */
    function DrawnSize(useBias: bool): nat
    {
      classWeights + wordWeights + if useBias then classes + words else 0
    }
  }

  function ShapeOf(v: Vocabulary, input: nat): OutputShape
  {
    OutputShape(v.NumClasses() * input, v.NumClasses(), WordRows(v) * input, WordRows(v))
  }

  /** Only the class weights and class bias have momentum; the word
    * tables are changed directly. The biases exist together or not at all. */
  datatype OutputParams = OutputParams(
    classWeights: Param, classBias: Option<Param>, wordWeights: seq<real>, wordBias: Option<seq<real>>)
  {
    ghost predicate SizedAs(s: OutputShape)
    {
      && classWeights.Sized(s.classWeights) && |wordWeights| == s.wordWeights
      && classBias.Some? == wordBias.Some?
      && (classBias.Some? ==> classBias.value.Sized(s.classes) && |wordBias.value| == s.words)
    }

    /** `UpdateMomentumWeights` (output.cc:226-245): the class weights and,
      * when present, the class bias take one add-then-decay step; the word
      * tables are untouched. */
    function Applied(momentum: real, ghost s: OutputShape): (r: OutputParams)
      requires SizedAs(s)
      ensures r.SizedAs(s)
      ensures r.classWeights == classWeights.Apply(momentum)
      ensures r.classBias == if classBias.Some? then Some(classBias.value.Apply(momentum)) else None
      ensures r.wordWeights == wordWeights && r.wordBias == wordBias
    {
      OutputParams(classWeights.Apply(momentum),
                   if classBias.Some? then Some(classBias.value.Apply(momentum)) else None,
                   wordWeights, wordBias)
    }

    /** The corrected `ResetMomentum`: both class momenta are zeroed, the
      * bias one only when there is a bias. */
    function MomentaReset(ghost s: OutputShape): (r: OutputParams)
      requires SizedAs(s)
      ensures r.SizedAs(s)
      ensures r.classWeights == classWeights.ResetMomentum()
      ensures r.classBias == if classBias.Some? then Some(classBias.value.ResetMomentum()) else None
      ensures r.wordWeights == wordWeights && r.wordBias == wordBias
    {
      OutputParams(classWeights.ResetMomentum(),
                   if classBias.Some? then Some(classBias.value.ResetMomentum()) else None,
                   wordWeights, wordBias)
    }

    /** The arrays `Write` emits (output.cc:312-332); the word tables only
      * when there are words outside the shortlist. */
    function Chunks(words: nat): seq<seq<real>>
    {
      [classWeights.weights, classWeights.momentum]
      + (if words > 0 then [wordWeights] else [])
      + if classBias.Some? && wordBias.Some? then
          [classBias.value.weights, classBias.value.momentum] + if words > 0 then [wordBias.value] else []
        else []
    }

    /** The arrays `RandomizeWeights` draws, in order (output.cc:264-288). */
    function DrawnWeights(): seq<seq<real>>
    {
      [classWeights.weights, wordWeights]
      + if classBias.Some? && wordBias.Some? then [classBias.value.weights, wordBias.value] else []
    }

    ghost predicate MomentaZero()
    {
      && classWeights.momentum == Zeros(|classWeights.momentum|)
      && (classBias.Some? ==> classBias.value.momentum == Zeros(|classBias.value.momentum|))
    }
  }

  function ZeroOutputParams(s: OutputShape, useBias: bool): (r: OutputParams)
    ensures r.SizedAs(s) && r.classBias.Some? == useBias
  {
    OutputParams(Param(Zeros(s.classWeights), Zeros(s.classWeights)),
                 if useBias then Some(Param(Zeros(s.classes), Zeros(s.classes))) else None,
                 Zeros(s.wordWeights),
                 if useBias then Some(Zeros(s.words)) else None)
  }

  /** `ResetMomentum` as written (output.cc:247-250): it zeroes
    * `momentum_class_bias_` without checking that it exists. Without a
    * bias that pointer is null; `FastZero` over the C class slots then
    * writes through it (a crash with the `std::fill` kernels), which the
    * model reports as fatal. */
  function ResetMomentumAsWritten(p: OutputParams, classes: nat, ghost s: OutputShape): (r: Outcome<OutputParams>)
    requires p.SizedAs(s)
    ensures r.IsFatal() <==> p.classBias.None? && classes > 0
    ensures !r.IsFatal() ==> r.value == p.MomentaReset(s)
  {
    if p.classBias.None? && classes > 0 then Fatal("FastZero on a null momentum_class_bias_")
    else Done(p.MomentaReset(s))
  }

  /** The discrepancy: with no bias and at least one class the original
    * fails where the guarded version zeroes the class-weight momentum. */
  lemma ResetMomentumWithoutBias(cw: Param, ww: seq<real>)
    requires cw.Sized(2)
    ensures ResetMomentumAsWritten(OutputParams(cw, None, ww, None), 1, OutputShape(2, 1, |ww|, 0)).IsFatal()
    ensures OutputParams(cw, None, ww, None).MomentaReset(OutputShape(2, 1, |ww|, 0)).classWeights.momentum == Zeros(2)
  {
  }

  /** `Read` (output.cc:290-310) consumes, in order, exactly the arrays
    * `Write` emits. */
  method ReadOutputParams(stream: seq<real>, s: OutputShape, useBias: bool) returns (p: OutputParams, rest: seq<real>)
    requires |stream| >= s.SerializedSize(useBias) && (s.words == 0 ==> s.wordWeights == 0)
    ensures p.SizedAs(s) && p.classBias.Some? == useBias
    ensures stream == Flatten(p.Chunks(s.words)) + rest
    ensures |rest| == |stream| - s.SerializedSize(useBias)
  {
    var w, m, r;
    w, r := TakeChunk(stream, s.classWeights, stream, []);
    m, r := TakeChunk(r, s.classWeights, stream, [w]);
    ghost var done := [w, m];
    var ww := [];
    if s.words > 0 {
      ww, r := TakeChunk(r, s.wordWeights, stream, done);
      done := done + [ww];
    }
    p := OutputParams(Param(w, m), None, ww, None);
    assert done == p.Chunks(s.words);
    if useBias {
      var cb, wb;
      cb, wb, r := ReadOutputBias(r, s, stream, done);
      p := OutputParams(Param(w, m), Some(cb), ww, Some(wb));
      assert p.Chunks(s.words) == done + ([cb.weights, cb.momentum] + if s.words > 0 then [wb] else []);
    }
    rest := r;
  }

  /** The bias part of `Read`: class bias, its momentum, then the word bias
    * when there are words outside the shortlist. */
  method ReadOutputBias(stream: seq<real>, s: OutputShape, ghost whole: seq<real>, ghost done: seq<seq<real>>)
    returns (cb: Param, wb: seq<real>, rest: seq<real>)
    requires |stream| >= 2 * s.classes + s.words && whole == Flatten(done) + stream
    ensures cb.Sized(s.classes) && |wb| == s.words
    ensures whole == Flatten(done + ([cb.weights, cb.momentum] + if s.words > 0 then [wb] else [])) + rest
    ensures |rest| == |stream| - (2 * s.classes + s.words)
  {
    var bw, bm, r;
    bw, r := TakeChunk(stream, s.classes, whole, done);
    bm, r := TakeChunk(r, s.classes, whole, done + [bw]);
    assert done + [bw] + [bm] == done + [bw, bm];
    wb := [];
    if s.words > 0 {
      wb, r := TakeChunk(r, s.words, whole, done + [bw, bm]);
      assert done + [bw, bm] + [wb] == done + ([bw, bm] + [wb]);
    } else {
      assert done + [bw, bm] == done + ([bw, bm] + []);
    }
    cb := Param(bw, bm);
    rest := r;
  }

  // ---------------------------------------------------------------------
  // The word part of `UpdateWeights` and `ComputeLogProbability`
  // ---------------------------------------------------------------------

  /** The word table `key` after the direct updates of the first n entries
    * (output.cc:203-221): entry i adds its contribution `g(i)(key)`
    * unless its class is a singleton. */
  function WordStepped(v: Vocabulary, table: seq<real>, slice: seq<nat>, g: nat -> Gradient, key: string, n: nat): (r: seq<real>)
    requires v.WellFormed() && ValidSlice(v, slice) && n <= |slice|
    ensures |r| == |table|
  {
    if n == 0 then table
    else
      var before := WordStepped(v, table, slice, g, key, n - 1);
      if WordLevel(v, slice[n - 1]) then AddPadded(before, g(n - 1)(key)) else before
  }

  /** A slice of shortlist words only leaves the word tables as they were. */
  lemma {:induction false} ShortlistSliceKeepsWordTables(v: Vocabulary, table: seq<real>, slice: seq<nat>, g: nat -> Gradient, key: string, n: nat)
    requires v.WellFormed() && ValidSlice(v, slice) && n <= |slice|
    requires forall i :: 0 <= i < |slice| ==> !WordLevel(v, slice[i])
    ensures WordStepped(v, table, slice, g, key, n) == table
  {
    if n > 0 {
      ShortlistSliceKeepsWordTables(v, table, slice, g, key, n - 1);
    }
  }

  /** The loop over the entries that updates the word tables directly. */
  method StepWordTables(v: Vocabulary, p: OutputParams, slice: seq<nat>, g: nat -> Gradient) returns (q: OutputParams)
    requires v.WellFormed() && ValidSlice(v, slice)
    ensures q.classWeights == p.classWeights && q.classBias == p.classBias
    ensures q.wordWeights == WordStepped(v, p.wordWeights, slice, g, "word weights", |slice|)
    ensures q.wordBias == if p.wordBias.Some? then Some(WordStepped(v, p.wordBias.value, slice, g, "word bias", |slice|)) else None
  {
    q := p;
    var i := 0;
    while i < |slice|
      invariant i <= |slice|
      invariant q.classWeights == p.classWeights && q.classBias == p.classBias
      invariant q.wordWeights == WordStepped(v, p.wordWeights, slice, g, "word weights", i)
      invariant q.wordBias == if p.wordBias.Some? then Some(WordStepped(v, p.wordBias.value, slice, g, "word bias", i)) else None
    {
      var c := v.GetClass(slice[i]);
      if v.GetClassSize(c) != 1 {
        if q.wordBias.Some? {
          q := q.(wordBias := Some(AddPadded(q.wordBias.value, g(i)("word bias"))));
        }
        q := q.(wordWeights := AddPadded(q.wordWeights, g(i)("word weights")));
      }
      i := i + 1;
    }
  }

  /** The log-probability term of entry i with word w, read from the
    * activations `x` of one step (output.cc:341-369): the log of the class
    * probability, divided by `num_oovs + 1` for the unknown word, plus,
    * outside singleton classes, the log of the word probability. */
  function EntryLogProbability(v: Vocabulary, l: Layout, numOovs: nat, x: seq<real>, ln: real -> real, i: nat, w: nat): real
    requires v.WellFormed() && Fits(v, l) && w < v.Size() && i < l.batch && |x| >= l.Stride()
  {
    var c := v.classOf[w];
    SlotsInStep(l, 0, i, c, 0);
    var p := x[l.ClassSlot(0, i, c)];
    var classTerm := ln(if v.hasUnk && w == v.unkIndex then p / (numOovs as real + 1.0) else p);
    if WordLevel(v, w) then
      SlotsInStep(l, 0, i, c, WithinClass(v, w));
      classTerm + ln(x[l.WordSlot(0, i, WithinClass(v, w))])
    else classTerm
  }

  /** The sum of the terms of the first n entries. */
  function LogProbability(v: Vocabulary, l: Layout, numOovs: nat, x: seq<real>, ln: real -> real, slice: seq<nat>, n: nat): real
    requires v.WellFormed() && Fits(v, l) && ValidSlice(v, slice) && n <= |slice| <= l.batch && |x| >= l.Stride()
  {
    if n == 0 then 0.0
    else LogProbability(v, l, numOovs, x, ln, slice, n - 1) + EntryLogProbability(v, l, numOovs, x, ln, n - 1, slice[n - 1])
  }

  /** The class term reads entry i's class row and the word term its word
    * row: entries never read each other's probabilities. */
  lemma EntryReadsOwnRows(v: Vocabulary, l: Layout, numOovs: nat, x: seq<real>, y: seq<real>, ln: real -> real, i: nat, w: nat)
    requires v.WellFormed() && Fits(v, l) && w < v.Size() && i < l.batch && |x| >= l.Stride() && |y| >= l.Stride()
    requires forall c :: 0 <= c < l.classes && l.ClassSlot(0, i, c) < |x| && l.ClassSlot(0, i, c) < |y| ==>
      x[l.ClassSlot(0, i, c)] == y[l.ClassSlot(0, i, c)]
    requires forall k :: 0 <= k < l.maxClassSize && l.WordSlot(0, i, k) < |x| && l.WordSlot(0, i, k) < |y| ==>
      x[l.WordSlot(0, i, k)] == y[l.WordSlot(0, i, k)]
    ensures EntryLogProbability(v, l, numOovs, x, ln, i, w) == EntryLogProbability(v, l, numOovs, y, ln, i, w)
  {
    SlotsInStep(l, 0, i, v.classOf[w], 0);
    if WordLevel(v, w) {
      SlotsInStep(l, 0, i, v.classOf[w], WithinClass(v, w));
    }
  }

  /** Extending a slice by one entry adds that entry's term. */
  lemma LogProbabilitySnoc(v: Vocabulary, l: Layout, numOovs: nat, x: seq<real>, ln: real -> real, slice: seq<nat>, w: nat)
    requires v.WellFormed() && Fits(v, l) && ValidSlice(v, slice) && w < v.Size()
    requires |slice| < l.batch && |x| >= l.Stride()
    ensures ValidSlice(v, slice + [w])
    ensures LogProbability(v, l, numOovs, x, ln, slice + [w], |slice| + 1) ==
      LogProbability(v, l, numOovs, x, ln, slice, |slice|) + EntryLogProbability(v, l, numOovs, x, ln, |slice|, w)
  {
    assert forall i :: 0 <= i < |slice| ==> (slice + [w])[i] == slice[i];
    LogProbabilityPrefix(v, l, numOovs, x, ln, slice, slice + [w], |slice|);
  }

  /** The first n terms depend only on the first n entries. */
  lemma {:induction false} LogProbabilityPrefix(v: Vocabulary, l: Layout, numOovs: nat, x: seq<real>, ln: real -> real,
                                                s: seq<nat>, u: seq<nat>, n: nat)
    requires v.WellFormed() && Fits(v, l) && ValidSlice(v, s) && ValidSlice(v, u)
    requires n <= |s| <= l.batch && n <= |u| <= l.batch && |x| >= l.Stride()
    requires forall i :: 0 <= i < n ==> s[i] == u[i]
    ensures LogProbability(v, l, numOovs, x, ln, s, n) == LogProbability(v, l, numOovs, x, ln, u, n)
  {
    if n > 0 {
      LogProbabilityPrefix(v, l, numOovs, x, ln, s, u, n - 1);
    }
  }

  /** The unmodified part of `ComputeLogProbability`'s loop. */
  method SumLogProbabilities(v: Vocabulary, l: Layout, numOovs: nat, x: seq<real>, ln: real -> real, slice: seq<nat>)
    returns (logProbability: real)
    requires v.WellFormed() && Fits(v, l) && ValidSlice(v, slice) && |slice| <= l.batch && |x| >= l.Stride()
    ensures logProbability == LogProbability(v, l, numOovs, x, ln, slice, |slice|)
  {
    logProbability := 0.0;
    var i := 0;
    while i < |slice|
      invariant i <= |slice|
      invariant logProbability == LogProbability(v, l, numOovs, x, ln, slice, i)
    {
      var w := slice[i];
      var c := v.GetClass(w);
      assert l.ClassSlot(0, i, c) < |x| by {
        SlotsInStep(l, 0, i, c, 0);
      }
      var probability := x[l.ClassSlot(0, i, c)];
      if v.hasUnk && w == v.unkIndex {
        probability := probability / (numOovs as real + 1.0);
      }
      logProbability := logProbability + ln(probability);
      if v.GetClassSize(c) > 1 {
        var k := WithinClass(v, w);
        assert l.WordSlot(0, i, k) < |x| by {
          SlotsInStep(l, 0, i, c, k);
        }
        logProbability := logProbability + ln(x[l.WordSlot(0, i, k)]);
      }
      i := i + 1;
    }
  }

  // ---------------------------------------------------------------------
  // The layer
  // ---------------------------------------------------------------------

  /** The four cursors, in slots: `class_b_t_`, `word_b_t_`,
    * `class_delta_t_` and `word_delta_t_`. */
  datatype OutputCursors = OutputCursors(classB: nat, wordB: nat, classDelta: nat, wordDelta: nat)
  {
    /** The word cursors move with the class cursors. */
    predicate InStep()
    {
      wordB == classB && wordDelta == classDelta
    }

    function Position(): Cursor
    {
      Cursor(classB, classDelta)
    }
  }

  class Output {
    const dims: Dims
    const vocab: Vocabulary
    const layout: Layout
    const numOovs: nat
    const wordOffset: seq<nat>
    // `class_b_` with `word_b_` inside it, and `class_delta_` with `word_delta_`
    const classB: array<real>
    const classDelta: array<real>
    var cursors: OutputCursors
    var params: OutputParams

    ghost predicate Valid()
      reads this
    {
      && vocab.WellFormed() && layout == LayoutOf(vocab, dims)
      && dims == OutputDims(vocab, dims.input, dims.batch, dims.length)
      && |wordOffset| == vocab.NumClasses()
      && (forall c :: 0 <= c < |wordOffset| ==> wordOffset[c] == WordOffset(vocab.classSizes, c))
      && classB.Length == layout.BufferSize() && classDelta.Length == layout.BufferSize()
      && classB != classDelta
      && cursors.InStep() && params.SizedAs(ShapeOf(vocab, dims.input))
    }

    function Position(): Cursor
      reads this
    {
      cursors.Position()
    }

    /** The constructor (output.cc:19-62): the output dimension is
      * V + C - shortlist, both buffers hold L steps of (C + M) * B reals,
      * and `word_offset_` is built class by class. Weights start at zero
      * where the source leaves them unset until `Read` or
      * `RandomizeWeights`. */
    constructor(input: nat, batch: nat, length: nat, numOovs: nat, useBias: bool, vocab: Vocabulary)
      requires vocab.WellFormed()
      ensures Valid() && fresh(classB) && fresh(classDelta)
      ensures dims == OutputDims(vocab, input, batch, length) && this.vocab == vocab && this.numOovs == numOovs
      ensures params == ZeroOutputParams(ShapeOf(vocab, input), useBias)
      ensures Position() == Cursor(0, 0)
    {
      var d := OutputDims(vocab, input, batch, length);
      var l := LayoutOf(vocab, d);
      var offsets := BuildWordOffsets(vocab.classSizes);
      dims := d;
      this.vocab := vocab;
      layout := l;
      this.numOovs := numOovs;
      wordOffset := offsets;
      classB := new real[l.BufferSize()];
      classDelta := new real[l.BufferSize()];
      cursors := OutputCursors(0, 0, 0, 0);
      params := ZeroOutputParams(ShapeOf(vocab, input), useBias);
    }

    /** `Evaluate` (output.cc:75-119): returns the slot of `class_b_t_` and
      * moves both activation cursors on. */
    method Evaluate() returns (result: nat)
      requires Valid()
      modifies this
      ensures Valid() && Position() == Forward(old(Position())) && params == old(params)
      ensures result == old(Position()).b
    {
      result := cursors.classB;
      cursors := OutputCursors(cursors.classB + 1, cursors.wordB + 1, cursors.classDelta, cursors.wordDelta);
    }

    /** `ComputeDelta` (output.cc:121-142): both activation cursors move
      * back; the one-hot targets of the slice go into the delta slots at
      * `class_delta_t_`, which does not move, and the softmax derivative
      * then turns each of the slice's class and word rows into the
      * activations at `class_b_t_` minus the row. */
    method ComputeDelta(slice: seq<nat>)
      requires Valid() && ValidSlice(vocab, slice) && |slice| <= dims.batch
      requires 1 <= Position().b <= dims.length && Position().delta < dims.length
      modifies this, classDelta
      ensures Valid() && Position() == Backward(old(Position())) && params == old(params)
      ensures DerivedFrom(classDelta[..], Marked(old(classDelta[..]), vocab, layout, Position().delta, slice), classB[..],
                          vocab, layout, Position().b, Position().delta, slice, |slice|, true)
    {
      var c := cursors;
      cursors := OutputCursors(c.classB - 1, c.wordB - 1, c.classDelta, c.wordDelta);
      MarkTargets(classDelta, vocab, layout, c.classDelta, slice);
      assert classDelta[..] == Marked(old(classDelta[..]), vocab, layout, c.classDelta, slice);
      DeriveSlice(classB, classDelta, vocab, layout, c.classB - 1, c.classDelta, slice);
    }

    /** `AddDelta` (output.cc:144-174): both delta cursors move on. */
    method AddDelta()
      requires Valid()
      modifies this
      ensures Valid() && Position() == Feed(old(Position())) && params == old(params)
    {
      cursors := OutputCursors(cursors.classB, cursors.wordB, cursors.classDelta + 1, cursors.wordDelta + 1);
    }

    /** `UpdateWeights` (output.cc:176-224): the delta cursors move back;
      * the class gradients go into the class momenta; the word tables are
      * changed directly, entry by entry, outside singleton classes; the
      * slot of `class_b_t_` is returned and both activation cursors move on. */
    method UpdateWeights(slice: seq<nat>, gradient: Gradient, entryGradient: nat -> Gradient) returns (result: nat)
      requires Valid() && ValidSlice(vocab, slice) && Position().delta >= 1
      modifies this
      ensures Valid() && Position() == Update(old(Position()))
      ensures result == old(Position()).b
      ensures params.classWeights == old(params).classWeights.Accumulate(gradient("class weights"))
      ensures params.classBias ==
        if old(params).classBias.Some? then Some(old(params).classBias.value.Accumulate(gradient("class bias"))) else None
      ensures params.wordWeights == WordStepped(vocab, old(params).wordWeights, slice, entryGradient, "word weights", |slice|)
      ensures params.wordBias ==
        if old(params).wordBias.Some?
        then Some(WordStepped(vocab, old(params).wordBias.value, slice, entryGradient, "word bias", |slice|))
        else None
    {
      var c := cursors;
      var p := params;
      if p.classBias.Some? {
        p := p.(classBias := Some(p.classBias.value.Accumulate(gradient("class bias"))));
      }
      p := p.(classWeights := p.classWeights.Accumulate(gradient("class weights")));
      p := StepWordTables(vocab, p, slice, entryGradient);
      params := p;
      result := c.classB;
      cursors := OutputCursors(c.classB + 1, c.wordB + 1, c.classDelta - 1, c.wordDelta - 1);
    }

    /** `UpdateMomentumWeights` (output.cc:226-245). */
    method UpdateMomentumWeights(momentum: real)
      requires Valid()
      modifies this
      ensures Valid() && Position() == old(Position())
      ensures params == old(params).Applied(momentum, ShapeOf(vocab, dims.input))
    {
      params := params.Applied(momentum, ShapeOf(vocab, dims.input));
    }

    /** `ResetMomentum` with the guard on the class-bias momentum that
      * output.cc:247-250 lacks (see `ResetMomentumAsWritten`). */
    method ResetMomentum()
      requires Valid()
      modifies this
      ensures Valid() && Position() == old(Position())
      ensures params == old(params).MomentaReset(ShapeOf(vocab, dims.input))
    {
      params := params.MomentaReset(ShapeOf(vocab, dims.input));
    }

    /** `Reset` (output.cc:252-262): whether dependent or not, all four
      * cursors go to base and both buffers are zeroed. */
    method Reset()
      requires Valid()
      modifies this, classB, classDelta
      ensures Valid() && Position() == Cursor(0, 0) && params == old(params)
      ensures classB[..] == Zeros(classB.Length) && classDelta[..] == Zeros(classDelta.Length)
    {
      cursors := OutputCursors(0, 0, 0, 0);
      ZeroRange(classB, 0, classB.Length);
      ZeroRange(classDelta, 0, classDelta.Length);
    }

    /** `ComputeLogProbability` (output.cc:334-382) on the activations `x`
      * of one step, with `ln` standing for the floating-point logarithm:
      * 0 for an empty slice, otherwise the sum of the entries' terms. */
    method ComputeLogProbability(slice: seq<nat>, x: seq<real>, ln: real -> real) returns (logProbability: real)
      requires Valid() && ValidSlice(vocab, slice) && |slice| <= dims.batch && |x| >= layout.Stride()
      ensures logProbability == LogProbability(vocab, layout, numOovs, x, ln, slice, |slice|)
    {
      logProbability := 0.0;
      if slice != [] {
        logProbability := SumLogProbabilities(vocab, layout, numOovs, x, ln, slice);
      }
    }

    function Chunks(): seq<seq<real>>
      reads this
    {
      params.Chunks(WordRows(vocab))
    }

    /** `Read` (output.cc:290-310). */
    method Read(stream: seq<real>) returns (rest: seq<real>)
      requires Valid() && |stream| >= ShapeOf(vocab, dims.input).SerializedSize(params.classBias.Some?)
      modifies this
      ensures Valid() && Position() == old(Position()) && params.classBias.Some? == old(params.classBias.Some?)
      ensures stream == Flatten(Chunks()) + rest
      ensures |rest| == |stream| - ShapeOf(vocab, dims.input).SerializedSize(params.classBias.Some?)
    {
      params, rest := ReadOutputParams(stream, ShapeOf(vocab, dims.input), params.classBias.Some?);
    }

    /** `RandomizeWeights` (output.cc:264-288): class weights, then word
      * weights, then with a bias the class bias and the word bias are
      * drawn; the class momenta are zeroed. */
    method RandomizeWeights(draws: seq<real>) returns (rest: seq<real>)
      requires Valid() && |draws| >= ShapeOf(vocab, dims.input).DrawnSize(params.classBias.Some?)
      modifies this
      ensures Valid() && Position() == old(Position()) && params.classBias.Some? == old(params.classBias.Some?)
      ensures draws == Flatten(params.DrawnWeights()) + rest && params.MomentaZero()
    {
      var s := ShapeOf(vocab, dims.input);
      ghost var done: seq<seq<real>> := [];
      var cw, ww, r;
      cw, r := TakeChunk(draws, s.classWeights, draws, done);
      done := done + [cw];
      ww, r := TakeChunk(r, s.wordWeights, draws, done);
      done := done + [ww];
      var p := OutputParams(Randomized(cw), None, ww, None);
      if params.classBias.Some? {
        var cb, wb;
        cb, r := TakeChunk(r, s.classes, draws, done);
        done := done + [cb];
        wb, r := TakeChunk(r, s.words, draws, done);
        done := done + [wb];
        p := OutputParams(Randomized(cw), Some(Randomized(cb)), ww, Some(wb));
      }
      assert done == p.DrawnWeights();
      params := p;
      rest := r;
    }
  }
}
