/**
 * Iteration over the training data (rwthlm/data.h): a `DataIterator` walks
 * the corpus in windows of `max_batch_size` sequences, and inside one batch
 * a `BatchIterator` walks the time positions, producing at each position the
 * "slice" of words of the sequences that are still running there.
 *
 * Iterators over `data_` are modelled by the sequences they range over and
 * integer positions into them.
 */
module Batching {
  import opened Common
  import opened Data

  // ---------------------------------------------------------------------
  // Slices (data.h:37-71)
  // ---------------------------------------------------------------------

  /** Sequence `s` still contributes a word at position `p` with offset `o`. */
  predicate Active(s: seq<int>, p: int, o: int)
  {
    p < |s| - 1 + o
  }

  /** The slice at position `p`: the words at `p` of the longest run of
    * leading active sequences, stopping at the first one that has ended. */
  function Slice(batch: seq<seq<int>>, p: nat, o: int): (r: seq<int>)
    requires o <= 1
    ensures |r| <= |batch|
  {
    if batch == [] || !Active(batch[0], p, o) then []
    else [batch[0][p]] + Slice(batch[1..], p, o)
  }

  /** What the slice holds: for each of its entries, the word at `p` of a
    * running sequence; past its end, the first sequence that has ended. */
  lemma {:induction false} SliceAt(batch: seq<seq<int>>, p: nat, o: int)
    requires o <= 1
    ensures var r := Slice(batch, p, o);
      && (forall i :: 0 <= i < |r| ==> Active(batch[i], p, o) && r[i] == batch[i][p])
      && (|r| < |batch| ==> !Active(batch[|r|], p, o))
  {
    if batch != [] && Active(batch[0], p, o) {
      SliceAt(batch[1..], p, o);
      var r := Slice(batch, p, o);
      var rest := Slice(batch[1..], p, o);
      assert r == [batch[0][p]] + rest;
      assert forall i :: 1 <= i < |r| ==> r[i] == rest[i - 1] && batch[1..][i - 1] == batch[i];
    }
  }

  /** A sequence active at `p + 1` is active at `p`, so slices never grow
    * as the position advances, whatever the order of the sequences. */
  lemma {:induction false} SliceShrinks(batch: seq<seq<int>>, p: nat, o: int)
    requires o <= 1
    ensures |Slice(batch, p + 1, o)| <= |Slice(batch, p, o)|
  {
    if batch != [] && Active(batch[0], p + 1, o) {
      SliceShrinks(batch[1..], p, o);
    }
  }

  /** Number of sequences of `batch` active at `p`, wherever they stand. */
  function CountActive(batch: seq<seq<int>>, p: int, o: int): nat
  {
    if batch == [] then 0
    else (if Active(batch[0], p, o) then 1 else 0) + CountActive(batch[1..], p, o)
  }

  lemma {:induction false} NoneActive(batch: seq<seq<int>>, p: int, o: int)
    requires forall j :: 0 <= j < |batch| ==> !Active(batch[j], p, o)
    ensures CountActive(batch, p, o) == 0
  {
    if batch != [] {
      NoneActive(batch[1..], p, o);
    }
  }

  /** In a batch sorted by non-increasing length the slice holds exactly one
    * word per sequence that is still running. */
  lemma {:induction false} SortedSliceCounts(batch: seq<seq<int>>, p: nat, o: int)
    requires o <= 1
    requires NonIncreasingLengths(batch)
    ensures |Slice(batch, p, o)| == CountActive(batch, p, o)
  {
    if batch == [] {
    } else if !Active(batch[0], p, o) {
      assert forall j :: 0 <= j < |batch| ==> !Active(batch[j], p, o) by {
        forall j | 0 <= j < |batch| ensures !Active(batch[j], p, o) {
          if j > 0 { assert |batch[0]| >= |batch[j]|; }
        }
      }
      NoneActive(batch, p, o);
    } else {
      assert NonIncreasingLengths(batch[1..]) by {
        forall i, j | 0 <= i < j < |batch[1..]| ensures |batch[1..][i]| >= |batch[1..][j]| {
          assert batch[1..][i] == batch[i + 1] && batch[1..][j] == batch[j + 1];
        }
      }
      SortedSliceCounts(batch[1..], p, o);
    }
  }

  /** Σ over positions lo..hi-1 of the offset-1 slice sizes. */
  function SliceWords(batch: seq<seq<int>>, lo: nat, hi: nat): nat
    decreases hi
  {
    if hi <= lo then 0 else SliceWords(batch, lo, hi - 1) + |Slice(batch, hi - 1, 1)|
  }

  /** Σ over positions lo..hi-1 of the number of running sequences. */
  function ActiveWords(batch: seq<seq<int>>, lo: nat, hi: nat): nat
    decreases hi
  {
    if hi <= lo then 0 else ActiveWords(batch, lo, hi - 1) + CountActive(batch, hi - 1, 1)
  }

  lemma {:induction false} SortedSliceWords(batch: seq<seq<int>>, lo: nat, hi: nat)
    requires NonIncreasingLengths(batch)
    ensures SliceWords(batch, lo, hi) == ActiveWords(batch, lo, hi)
    decreases hi
  {
    if hi > lo {
      SortedSliceWords(batch, lo, hi - 1);
      SortedSliceCounts(batch, hi - 1, 1);
    }
  }

  lemma {:induction false} ActiveWordsSplit(batch: seq<seq<int>>, lo: nat, hi: nat)
    requires batch != []
    ensures ActiveWords(batch, lo, hi) == ActiveWords([batch[0]], lo, hi) + ActiveWords(batch[1..], lo, hi)
    decreases hi
  {
    if hi > lo {
      ActiveWordsSplit(batch, lo, hi - 1);
      assert CountActive([batch[0]], hi - 1, 1) == if Active(batch[0], hi - 1, 1) then 1 else 0 by {
        assert [batch[0]][1..] == [];
      }
    }
  }

  lemma {:induction false} ActiveWordsSingle(s: seq<int>, h: nat)
    requires 1 <= |s| && 1 <= h
    ensures ActiveWords([s], 1, h) == Min(h, |s|) - 1
  {
    if h > 1 {
      ActiveWordsSingle(s, h - 1);
      assert CountActive([s], h - 1, 1) == if h - 1 < |s| then 1 else 0 by {
        assert [s][1..] == [];
      }
    }
  }

  lemma {:induction false} ActiveWordsRunning(batch: seq<seq<int>>, h: nat)
    requires 1 <= h
    requires forall j :: 0 <= j < |batch| ==> 1 <= |batch[j]| <= h
    ensures ActiveWords(batch, 1, h) == RunningWords(batch)
  {
    if batch == [] {
      ActiveWordsNone(h);
    } else {
      ActiveWordsSplit(batch, 1, h);
      ActiveWordsSingle(batch[0], h);
      ActiveWordsRunning(batch[1..], h);
    }
  }

  lemma {:induction false} ActiveWordsNone(h: nat)
    ensures ActiveWords([], 1, h) == 0
  {
    if h > 1 {
      ActiveWordsNone(h - 1);
    }
  }

  /** Walking a sorted batch of non-empty sequences from `begin()` to `end()`
    * (positions 1 .. |first|-1, offset 1) visits Σ (|s| - 1) words: as many
    * as `CountNumRunningWords` counts for these sequences. */
  lemma SortedBatchWords(batch: seq<seq<int>>)
    requires batch != [] && NonIncreasingLengths(batch)
    requires forall j :: 0 <= j < |batch| ==> batch[j] != []
    ensures SliceWords(batch, 1, |batch[0]|) == RunningWords(batch)
  {
    SortedSliceWords(batch, 1, |batch[0]|);
    assert forall j :: 0 <= j < |batch| ==> 1 <= |batch[j]| <= |batch[0]| by {
      forall j | 0 <= j < |batch| ensures 1 <= |batch[j]| <= |batch[0]| {
        if j > 0 { assert |batch[0]| >= |batch[j]|; }
      }
    }
    ActiveWordsRunning(batch, |batch[0]|);
  }

  // ---------------------------------------------------------------------
  // BatchIterator (data.h:30-85)
  // ---------------------------------------------------------------------

  class BatchIterator {
    var position: int
    var slice: seq<int>
    const offset: int
    const sequences: seq<seq<int>>

    /** The constructor's loop also stops at an empty sequence; for a
      * position >= 0 such a sequence is never active, so the slice is
      * the same as `Slice`. A negative position reaches `at` only when the
      * first sequence is non-empty, where it throws. */
    constructor (sequences: seq<seq<int>>, position: int, offset: int)
      requires offset == 0 || offset == 1
      requires position >= 0 || sequences == [] || sequences[0] == []
      ensures this.sequences == sequences && this.position == position && this.offset == offset
      ensures slice == if position >= 0 then Slice(sequences, position, offset) else []
    {
      ghost var r := if position >= 0 then Slice(sequences, position, offset) else [];
      if position >= 0 {
        SliceAt(sequences, position, offset);
      }
      var s: seq<int> := [];
      var k := 0;
      while k < |sequences| && sequences[k] != []
        invariant k <= |r| && s == r[..k]
        invariant k < |r| ==> r[k] == sequences[k][position] && Active(sequences[k], position, offset)
        invariant position < 0 ==> k == 0
      {
        if position >= |sequences[k]| - 1 + offset {
          break;
        }
        s := s + [sequences[k][position]];
        k := k + 1;
      }
      assert s == r;
      this.sequences := sequences;
      this.position := position;
      this.offset := offset;
      slice := s;
    }

    /** `++it`: the slice at the next position. */
    method Increment()
      requires position >= -1
      requires offset == 0 || offset == 1
      modifies this
      ensures position == old(position) + 1
      ensures slice == Slice(sequences, position, offset)
    {
      var p := position + 1;
      ghost var r := Slice(sequences, p, offset);
      SliceAt(sequences, p, offset);
      var s: seq<int> := [];
      var k := 0;
      while k < |sequences|
        invariant k <= |r| && s == r[..k]
        invariant k < |r| ==> p >= 0 && Active(sequences[k], p, offset) && r[k] == sequences[k][p]
      {
        if p >= |sequences[k]| - 1 + offset {
          break;
        }
        s := s + [sequences[k][p]];
        k := k + 1;
      }
      assert s == r;
      position := p;
      slice := s;
    }

    /** `--it`: the slice at the previous position, empty below the offset. */
    method Decrement()
      requires offset == 0 || offset == 1
      modifies this
      ensures position == old(position) - 1
      ensures slice == if position < offset then [] else Slice(sequences, position, offset)
    {
      var p := position - 1;
      ghost var r := if p < offset then [] else Slice(sequences, p, offset);
      if p >= offset {
        SliceAt(sequences, p, offset);
      }
      var s: seq<int> := [];
      var k := 0;
      while k < |sequences|
        invariant k <= |r| && s == r[..k]
        invariant k < |r| ==> p >= 0 && Active(sequences[k], p, offset) && r[k] == sequences[k][p]
      {
        if p < offset || p >= |sequences[k]| - 1 + offset {
          break;
        }
        s := s + [sequences[k][p]];
        k := k + 1;
      }
      assert s == r;
      position := p;
      slice := s;
    }

    /** Iterators compare by position only. */
    predicate Equal(other: BatchIterator)
      reads this, other
    {
      position == other.position
    }
  }

  // ---------------------------------------------------------------------
  // Batch (data.h:87-131)
  // ---------------------------------------------------------------------

  class Batch {
    const sequences: seq<seq<int>>

    constructor (sequences: seq<seq<int>>)
      ensures this.sequences == sequences
    {
      this.sequences := sequences;
    }

    /** `Begin(offset)`: the iterator at position `offset`. */
    method Begin(offset: int) returns (it: BatchIterator)
      requires offset == 0 || offset == 1
      ensures fresh(it)
      ensures it.sequences == sequences && it.offset == offset && it.position == offset
      ensures it.slice == Slice(sequences, offset, offset)
    {
      it := new BatchIterator(sequences, offset, offset);
    }

    /** `End(offset)`: the iterator one past the last position of the first
      * (longest) sequence. */
    method End(offset: int) returns (it: BatchIterator)
      requires offset == 0 || offset == 1
      requires sequences != []
      ensures fresh(it)
      ensures it.sequences == sequences && it.offset == offset
      ensures it.position == |sequences[0]| - 1 + offset
      ensures it.slice == []
    {
      it := new BatchIterator(sequences, |sequences[0]| - 1 + offset, offset);
    }
  }

  // ---------------------------------------------------------------------
  // DataIterator (data.h:133-168, 206-212)
  // ---------------------------------------------------------------------

  class DataIterator {
    const data: seq<seq<int>>
    const maxBatchSize: nat
    var begin: nat
    var end: nat

    /** The batch window: at most `maxBatchSize` sequences from `begin`, never past the data. */
    ghost predicate Valid()
      reads this
    {
      begin <= |data| && end == Min(begin + maxBatchSize, |data|)
    }

    constructor (data: seq<seq<int>>, start: nat, maxBatchSize: nat)
      requires start <= |data|
      ensures this.data == data && this.maxBatchSize == maxBatchSize
      ensures begin == start && Valid()
    {
      this.data := data;
      this.maxBatchSize := maxBatchSize;
      begin := start;
      end := if |data| - start >= maxBatchSize then start + maxBatchSize else |data|;
    }

    /** `++it`: both ends move on by one window, clamped at the data's end. */
    method Increment()
      requires Valid()
      modifies this
      ensures Valid()
      ensures begin == old(end)
      ensures end - begin <= maxBatchSize
    {
      begin := if |data| - begin > maxBatchSize then begin + maxBatchSize else |data|;
      end := if |data| - end > maxBatchSize then end + maxBatchSize else |data|;
    }

    /** Iterators compare by the start of their window only. */
    predicate Equal(other: DataIterator)
      reads this, other
    {
      begin == other.begin
    }

    /** `*it`: the current batch. */
    function Current(): seq<seq<int>>
      reads this
      requires Valid()
    {
      data[begin..end]
    }
  }

  /** The window count after covering `n` sequences with `k` windows of `b`,
    * the last possibly short: ⌈n / b⌉. */
  lemma WindowCount(n: nat, b: nat, k: nat)
    requires b >= 1
    requires k * b >= n && (k == 0 || (k - 1) * b < n)
    ensures (n + b - 1) / b == k
  {
    if k == 0 {
      assert n == 0;
      assert 0 <= b - 1 < b;
      DivIsUnique(b - 1, b, 0);
    } else {
      assert k * b == (k - 1) * b + b;
      DivIsUnique(n + b - 1, b, k);
    }
  }

  /** The range-for over a `Data` object (data.h:206-212): starting from
    * `begin()` it visits batches until it equals `end()`. The batches are
    * consecutive and non-overlapping, cover the data in order, all but the
    * last are full, and there are `GetNumBatches` of them. */
  method Batches(d: Data) returns (windows: seq<seq<seq<int>>>)
    requires d.maxBatchSize >= 1
    ensures Flatten(windows) == d.data
    ensures forall j :: 0 <= j < |windows| ==> 1 <= |windows[j]| <= d.maxBatchSize
    ensures forall j :: 0 <= j < |windows| - 1 ==> |windows[j]| == d.maxBatchSize
    ensures |windows| == d.GetNumBatches()
  {
    var data := d.data;
    var b := d.maxBatchSize;
    var it := new DataIterator(data, 0, b);
    var last := new DataIterator(data, |data|, b);
    windows := [];
    while !it.Equal(last)
      invariant it.Valid() && it.data == data && it.maxBatchSize == b
      invariant last.begin == |data|
      invariant Covered(data, windows, it.begin, b)
      decreases |data| - it.begin
    {
      var w := it.Current();
      CoveredStep(data, windows, it.begin, it.end, b);
      windows := windows + [w];
      it.Increment();
    }
    assert data[..|data|] == data;
    WindowCount(|data|, b, |windows|);
  }

  /** `windows` are the batches met before window start `begin`: they cover
    * data[..begin] in order, each holds 1 to b sequences, all are full while
    * data remains, and their number accounts for `begin`. */
  ghost predicate Covered(data: seq<seq<int>>, windows: seq<seq<seq<int>>>, begin: nat, b: nat)
  {
    && begin <= |data|
    && Flatten(windows) == data[..begin]
    && (forall j :: 0 <= j < |windows| ==> 1 <= |windows[j]| <= b)
    && (forall j :: 0 <= j < |windows| - 1 ==> |windows[j]| == b)
    && (begin < |data| ==> forall j :: 0 <= j < |windows| ==> |windows[j]| == b)
    && (begin < |data| ==> begin == |windows| * b)
    && |windows| * b >= begin && (windows == [] || (|windows| - 1) * b < begin)
  }

  lemma CoveredStep(data: seq<seq<int>>, windows: seq<seq<seq<int>>>, begin: nat, end: nat, b: nat)
    requires b >= 1 && Covered(data, windows, begin, b)
    requires begin < |data| && end == Min(begin + b, |data|)
    ensures Covered(data, windows + [data[begin..end]], end, b)
  {
    var w := data[begin..end];
    var ws := windows + [w];
    FlattenAppend(windows, [w]);
    FlattenSingle(w);
    assert data[..end] == data[..begin] + w;
    MulSucc(|windows|, b);
    assert |ws| * b == begin + b;
    assert forall j :: 0 <= j < |ws| - 1 ==> ws[j] == windows[j];
  }
}
