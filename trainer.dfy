/**
 * Training control (trainer.h, trainer.cc): the epoch loop that keeps the
 * best checkpoint, the three passes over a batch, and the search for an
 * initial learning rate.
 *
 * Perplexities come from floating-point work on the net and are inputs
 * here: one per epoch for `Train`, one per batch for a probe. The weights
 * an epoch of training leaves behind are inputs too.
 */
module Trainers {
  import opened Common
  import opened Data
  import opened Batching
  import opened Nets

  // ---------------------------------------------------------------------
  // Constants and small helpers (trainer.h:23-81, trainer.cc:30-31)
  // ---------------------------------------------------------------------

  const MaxNumBatches: int := 30
  const MinNumDecreases: int := 25
  const AutoInitialLearningRate: real := 0.05
  const MaxRelativeIncrease: real := 2.0

  /** `Caster` (trainer.h:23-34): the slice's word indices as reals. */
  function Cast(slice: seq<int>): (r: seq<real>)
    ensures |r| == |slice|
  {
    seq(|slice|, i requires 0 <= i < |slice| => slice[i] as real)
  }

  /** Casting keeps every index: the cast slice determines the slice. */
  lemma CastKeepsValues(a: seq<int>, b: seq<int>)
    ensures Cast(a) == Cast(b) <==> a == b
  {
    if Cast(a) == Cast(b) {
      assert |a| == |b|;
      forall i | 0 <= i < |a|
        ensures a[i] == b[i]
      {
        assert Cast(a)[i] == Cast(b)[i];
      }
    }
  }

  /** The limits of the floating-point type: the smallest positive normal
    * value and the largest finite one. */
  datatype RealLimits = RealLimits(smallest: real, largest: real)
  {
    predicate Sane() { 0.0 < smallest < largest }
  }

  /** `IsFiniteNumber` (trainer.h:66-70): between the smallest positive
    * normal value and the largest value. */
  predicate IsFiniteNumber(x: real, lim: RealLimits)
  {
    lim.smallest <= x <= lim.largest
  }

  /** The test treats zero and every negative value as not finite. */
  lemma NonPositiveIsNotFinite(x: real, lim: RealLimits)
    requires lim.Sane() && x <= 0.0
    ensures !IsFiniteNumber(x, lim)
  {
  }

  // ---------------------------------------------------------------------
  // The passes over one batch (trainer.cc:113-157)
  // ---------------------------------------------------------------------

  /** One call the trainer makes on the net. */
  datatype Step =
    | ResetStep(dependent: bool)
    | ResetHistoriesStep
    | EvaluateStep(position: int, slice: seq<int>, input: seq<real>)
    | ComputeDeltaStep(position: int, slice: seq<int>)
    | UpdateWeightsStep(position: int, slice: seq<int>, input: seq<real>)
    | MomentumStep

  /** The number of time steps of a batch: positions 1 .. |first| - 1. */
  function Steps(seqs: seq<seq<int>>): nat
    requires seqs != [] && |seqs[0]| >= 1
  {
    |seqs[0]| - 1
  }

  /** The input of the step at position k + 1: the slice before it, which
    * for the first step is `*batch.Begin(0)`. */
  function InputAt(seqs: seq<seq<int>>, k: nat): seq<real>
  {
    if k == 0 then Cast(Slice(seqs, 0, 0)) else Cast(Slice(seqs, k, 1))
  }

  /** The step of the forward (`evaluate`) or the update pass at position
    * k + 1. */
  function PassStep(seqs: seq<seq<int>>, k: nat, evaluate: bool): Step
  {
    if evaluate then EvaluateStep(k + 1, Slice(seqs, k + 1, 1), InputAt(seqs, k))
    else UpdateWeightsStep(k + 1, Slice(seqs, k + 1, 1), InputAt(seqs, k))
  }

  /** The first n steps of the forward (`evaluate`) or the update pass. */
  function PassPrefix(seqs: seq<seq<int>>, n: nat, evaluate: bool): (r: seq<Step>)
    ensures |r| == n
  {
    if n == 0 then [] else PassPrefix(seqs, n - 1, evaluate) + [PassStep(seqs, n - 1, evaluate)]
  }

  lemma {:induction false} PassPrefixAt(seqs: seq<seq<int>>, n: nat, evaluate: bool)
    ensures forall k :: 0 <= k < n ==> PassPrefix(seqs, n, evaluate)[k] == PassStep(seqs, k, evaluate)
  {
    if n > 0 {
      PassPrefixAt(seqs, n - 1, evaluate);
      var init := PassPrefix(seqs, n - 1, evaluate);
      var all := PassPrefix(seqs, n, evaluate);
      assert all == init + [PassStep(seqs, n - 1, evaluate)];
      forall k | 0 <= k < n
        ensures all[k] == PassStep(seqs, k, evaluate)
      {
        if k < n - 1 {
          assert all[k] == init[k];
        }
      }
    }
  }

  /** The steps of the forward (`evaluate`) or the update pass, in order. */
  function PassSteps(seqs: seq<seq<int>>, evaluate: bool): (r: seq<Step>)
    requires seqs != [] && |seqs[0]| >= 1
  {
    PassPrefix(seqs, Steps(seqs), evaluate)
  }

  function ForwardSteps(seqs: seq<seq<int>>): (r: seq<Step>)
    requires seqs != [] && |seqs[0]| >= 1
  {
    PassSteps(seqs, true)
  }

  function BackwardSteps(seqs: seq<seq<int>>): (r: seq<Step>)
    requires seqs != [] && |seqs[0]| >= 1
  {
    var t := Steps(seqs);
    seq(t, k requires 0 <= k < t => ComputeDeltaStep(t - k, Slice(seqs, t - k, 1)))
  }

  function UpdateSteps(seqs: seq<seq<int>>): (r: seq<Step>)
    requires seqs != [] && |seqs[0]| >= 1
  {
    PassSteps(seqs, false)
  }

  /** The three passes visit the same positions: the forward and the update
    * pass from the first position to the last, on the same slices and
    * inputs, the backward pass the same positions and slices in reverse. */
  lemma PassesAgree(seqs: seq<seq<int>>)
    requires seqs != [] && |seqs[0]| >= 1
    ensures |ForwardSteps(seqs)| == |BackwardSteps(seqs)| == |UpdateSteps(seqs)| == Steps(seqs)
    ensures forall k :: 0 <= k < Steps(seqs) ==>
      && ForwardSteps(seqs)[k] == EvaluateStep(k + 1, Slice(seqs, k + 1, 1), InputAt(seqs, k))
      && UpdateSteps(seqs)[k] == UpdateWeightsStep(k + 1, Slice(seqs, k + 1, 1), InputAt(seqs, k))
      && BackwardSteps(seqs)[Steps(seqs) - 1 - k] == ComputeDeltaStep(k + 1, Slice(seqs, k + 1, 1))
  {
    PassPrefixAt(seqs, Steps(seqs), true);
    PassPrefixAt(seqs, Steps(seqs), false);
  }

  /** The loop of `TrainBatch`'s backward pass as written (trainer.cc:126-130):
    * a do-while that decrements first and stops once it reaches `stop`.
    * `fuel` bounds the iterations; `None` means it has not stopped. */
  function DoWhileBackward(position: int, stop: int, fuel: nat): (r: Option<seq<int>>)
    decreases fuel
  {
    if fuel == 0 then None
    else
      var p := position - 1;
      if p == stop then Some([p])
      else match DoWhileBackward(p, stop, fuel - 1)
        case None => None
        case Some(ps) => Some([p] + ps)
  }

  /** From a start at or below `stop` the do-while never reaches it: with a
    * first sequence of length 1, `End(1) == Begin(1)` and the loop runs on. */
  lemma {:induction false} DoWhileNeverStops(position: int, stop: int, fuel: nat)
    requires position <= stop
    ensures DoWhileBackward(position, stop, fuel) == None
    decreases fuel
  {
    if fuel > 0 {
      DoWhileNeverStops(position - 1, stop, fuel - 1);
    }
  }

  /** A batch whose first sequence has one token: the backward loop of
    * `TrainBatch` as written does not stop, however long it runs. */
  lemma SingleTokenBatchHangs(seqs: seq<seq<int>>, fuel: nat)
    requires seqs != [] && |seqs[0]| == 1
    ensures DoWhileBackward(|seqs[0]| - 1 + 1, 1, fuel) == None
  {
    DoWhileNeverStops(1, 1, fuel);
  }

  /** Positions hi - 1 down to lo. */
  function Descending(hi: int, lo: int): seq<int>
    decreases hi - lo
  {
    if hi <= lo then [] else [hi - 1] + Descending(hi - 1, lo)
  }

  /** Above `stop`, the do-while visits exactly the positions the corrected
    * loop visits. */
  lemma {:induction false} DoWhileAboveStop(position: int, stop: int)
    requires position > stop
    ensures DoWhileBackward(position, stop, position - stop) == Some(Descending(position, stop))
    decreases position - stop
  {
    var p := position - 1;
    if p > stop {
      DoWhileAboveStop(p, stop);
      assert DoWhileBackward(position, stop, position - stop) == Some([p] + Descending(p, stop));
    } else {
      assert p == stop && position - stop == 1;
      assert Descending(p, stop) == [];
      assert Descending(position, stop) == [p];
      assert DoWhileBackward(position, stop, 1) == Some([p]);
    }
  }

  /** The positions of `BackwardSteps`, counted down from the last. */
  lemma BackwardPositions(seqs: seq<seq<int>>)
    requires seqs != [] && |seqs[0]| >= 1
    ensures |Descending(Steps(seqs) + 1, 1)| == Steps(seqs)
    ensures forall k :: 0 <= k < Steps(seqs) ==> BackwardSteps(seqs)[k].position == Descending(Steps(seqs) + 1, 1)[k]
  {
    DescendingAt(Steps(seqs) + 1, 1);
  }

  lemma {:induction false} DescendingAt(hi: int, lo: int)
    requires hi >= lo
    ensures |Descending(hi, lo)| == hi - lo
    ensures forall k :: 0 <= k < hi - lo ==> Descending(hi, lo)[k] == hi - 1 - k
    decreases hi - lo
  {
    if hi > lo {
      DescendingAt(hi - 1, lo);
    }
  }

  /** One more position of a pass: its step and its slice's words. */
  lemma PassAdvances(seqs: seq<seq<int>>, p: nat, evaluate: bool, steps: seq<Step>, words: nat, step: Step, slice: seq<int>)
    requires p >= 1
    requires steps == PassPrefix(seqs, p - 1, evaluate) && step == PassStep(seqs, p - 1, evaluate)
    requires words == SliceWords(seqs, 1, p) && slice == Slice(seqs, p, 1)
    ensures steps + [step] == PassPrefix(seqs, p, evaluate)
    ensures words + |slice| == SliceWords(seqs, 1, p + 1)
  {
  }

  /** The feed-forward variant (trainer.cc:142-157): every position is
    * reset, evaluated, back-propagated, updated and given momentum. */
  function FeedforwardSteps(seqs: seq<seq<int>>): seq<seq<Step>>
    requires seqs != [] && |seqs[0]| >= 1
  {
    FeedforwardPrefix(seqs, Steps(seqs))
  }

  /** The calls at the first n positions of the feed-forward variant. */
  function FeedforwardPrefix(seqs: seq<seq<int>>, n: nat): (r: seq<seq<Step>>)
    ensures |r| == n
  {
    if n == 0 then []
    else FeedforwardPrefix(seqs, n - 1) + [FeedforwardAt(seqs, n - 1)]
  }

  function FeedforwardAt(seqs: seq<seq<int>>, k: nat): seq<Step>
  {
    [ResetStep(false), EvaluateStep(k + 1, Slice(seqs, k + 1, 1), InputAt(seqs, k)),
     ComputeDeltaStep(k + 1, Slice(seqs, k + 1, 1)),
     UpdateWeightsStep(k + 1, Slice(seqs, k + 1, 1), InputAt(seqs, k)), MomentumStep]
  }

  // ---------------------------------------------------------------------
  // One learning-rate probe (trainer.cc:164-203)
  // ---------------------------------------------------------------------

  /** Where a probe stopped: after how many batches, with what count of
    * decreases, and whether the rate became the candidate. */
  datatype ProbeResult = ProbeResult(batches: int, falls: int, passed: bool)

  /** The probe from batch k on, `previous` being the last perplexity seen.
    * It stops when the data run out, on a non-finite perplexity, once too
    * few batches are left to reach the decreases needed, or after
    * `MaxNumBatches` batches, which makes the rate the candidate. */
  function ProbeFrom(ppls: seq<real>, lim: RealLimits, k: nat, previous: real, batches: int, falls: int): ProbeResult
    requires k <= |ppls| && previous != 0.0
    requires forall j :: k <= j < |ppls| ==> ppls[j] != 0.0
    decreases |ppls| - k
  {
    if k == |ppls| then ProbeResult(batches, falls, false)
    else
      var p := ppls[k];
      var counted := if p < previous then falls + 1 else falls;
      var d := if p / previous > MaxRelativeIncrease then -MaxNumBatches else counted;
      var b := batches + 1;
      if !IsFiniteNumber(p, lim) then ProbeResult(b, d, false)
      else if MaxNumBatches - b < MinNumDecreases - d then ProbeResult(b, d, false)
      else if b == MaxNumBatches then ProbeResult(b, d, true)
      else ProbeFrom(ppls, lim, k + 1, p, b, d)
  }

  /** A probe from its start: the previous perplexity is the largest value. */
  function Probe(ppls: seq<real>, lim: RealLimits): ProbeResult
    requires lim.Sane() && forall j :: 0 <= j < |ppls| ==> ppls[j] != 0.0
  {
    ProbeFrom(ppls, lim, 0, lim.largest, 0, 0)
  }

  /** Invariants of a running probe: at most `MaxNumBatches` batches so
    * far, and enough decreases still reachable. */
  ghost predicate ProbeRunning(batches: int, falls: int)
  {
    0 <= batches < MaxNumBatches && falls <= batches
    && MaxNumBatches - batches >= MinNumDecreases - falls
  }

  /** A passed probe ran exactly `MaxNumBatches` batches with at least
    * `MinNumDecreases` decreases: the assertion at trainer.cc:199 holds. */
  lemma {:induction false} ProbePassed(ppls: seq<real>, lim: RealLimits, k: nat, previous: real, batches: int, falls: int)
    requires k <= |ppls| && previous != 0.0
    requires forall j :: k <= j < |ppls| ==> ppls[j] != 0.0
    requires ProbeRunning(batches, falls)
    ensures var r := ProbeFrom(ppls, lim, k, previous, batches, falls);
      r.passed ==> r.batches == MaxNumBatches && r.falls >= MinNumDecreases
    ensures var r := ProbeFrom(ppls, lim, k, previous, batches, falls);
      r.batches <= MaxNumBatches
    decreases |ppls| - k
  {
    if k < |ppls| {
      var p := ppls[k];
      var counted := if p < previous then falls + 1 else falls;
      var d := if p / previous > MaxRelativeIncrease then -MaxNumBatches else counted;
      var b := batches + 1;
      if IsFiniteNumber(p, lim) && MaxNumBatches - b >= MinNumDecreases - d && b != MaxNumBatches {
        ProbePassed(ppls, lim, k + 1, p, b, d);
      }
    }
  }

  /** A perplexity more than `MaxRelativeIncrease` times the previous one
    * stops the probe at that batch without a candidate. */
  lemma OscillationRejects(ppls: seq<real>, lim: RealLimits, k: nat, previous: real, batches: int, falls: int)
    requires k < |ppls| && previous != 0.0
    requires forall j :: k <= j < |ppls| ==> ppls[j] != 0.0
    requires batches >= 0
    requires ppls[k] / previous > MaxRelativeIncrease
    ensures ProbeFrom(ppls, lim, k, previous, batches, falls) == ProbeResult(batches + 1, -MaxNumBatches, false)
  {
  }

  /** A probe only passes on `MaxNumBatches` finite perplexities of which
    * enough fall. */
  lemma {:induction false} ProbePassNeedsBatches(ppls: seq<real>, lim: RealLimits, k: nat, previous: real, batches: int, falls: int)
    requires k <= |ppls| && previous != 0.0
    requires forall j :: k <= j < |ppls| ==> ppls[j] != 0.0
    requires 0 <= batches < MaxNumBatches
    requires ProbeFrom(ppls, lim, k, previous, batches, falls).passed
    ensures k + MaxNumBatches - batches <= |ppls|
    ensures forall j :: k <= j < k + MaxNumBatches - batches ==> IsFiniteNumber(ppls[j], lim)
    decreases |ppls| - k
  {
    var p := ppls[k];
    var counted := if p < previous then falls + 1 else falls;
    var d := if p / previous > MaxRelativeIncrease then -MaxNumBatches else counted;
    if batches + 1 != MaxNumBatches {
      ProbePassNeedsBatches(ppls, lim, k + 1, p, batches + 1, d);
    }
  }

  /** The probe's batch loop (trainer.cc:165-203), as a loop over the batch
    * perplexities. */
  method RunProbe(ppls: seq<real>, lim: RealLimits) returns (r: ProbeResult)
    requires lim.Sane() && forall j :: 0 <= j < |ppls| ==> ppls[j] != 0.0
    ensures r == Probe(ppls, lim)
  {
    var ppl := lim.largest;
    var batches, falls := 0, 0;
    var k := 0;
    while k < |ppls|
      invariant k <= |ppls| && ppl != 0.0
      invariant ProbeFrom(ppls, lim, k, ppl, batches, falls) == Probe(ppls, lim)
      decreases |ppls| - k
    {
      var newPpl := ppls[k];
      if newPpl < ppl {
        falls := falls + 1;
      }
      if newPpl / ppl > MaxRelativeIncrease {
        falls := -MaxNumBatches;
      }
      ppl := newPpl;
      batches := batches + 1;
      if !IsFiniteNumber(ppl, lim) {
        return ProbeResult(batches, falls, false);
      }
      if MaxNumBatches - batches < MinNumDecreases - falls {
        return ProbeResult(batches, falls, false);
      }
      if batches == MaxNumBatches {
        return ProbeResult(batches, falls, true);
      }
      k := k + 1;
    }
    r := ProbeResult(batches, falls, false);
  }

  // ---------------------------------------------------------------------
  // The learning-rate search (trainer.cc:159-237)
  // ---------------------------------------------------------------------

  /** The rate tried by probe k - 1 of a search from `lr`: `lr` times the
    * k-th power of the factor. */
  function RateAt(lr: real, f: real, k: nat): real
  {
    if k == 0 then lr else RateAt(lr, f, k - 1) * f
  }


  /** Every probe's perplexities are non-zero. */
  ghost predicate NonZeroProbes(probes: seq<seq<real>>)
  {
    forall j, i :: 0 <= j < |probes| && 0 <= i < |probes[j]| ==> probes[j][i] != 0.0
  }

  /** Which probes pass, in order. */
  function Verdicts(probes: seq<seq<real>>, lim: RealLimits): (v: seq<bool>)
    requires lim.Sane() && NonZeroProbes(probes)
    ensures |v| == |probes|
    ensures forall j :: 0 <= j < |probes| ==> v[j] == Probe(probes[j], lim).passed
  {
    seq(|probes|, j requires 0 <= j < |probes| => Probe(probes[j], lim).passed)
  }

  /** `AutoAdjustLearningRate`'s outer loop from probe j on, given which
    * probes pass: `rate` is the last rate tried, `candidate` the last that
    * passed (or -1). It stops when increasing at the first probe that
    * fails and when decreasing at the first that passes; `None` means the
    * probes ran out first. */
  function Search(passed: seq<bool>, factor: real, rate: real, candidate: real, j: nat): Option<real>
    requires j <= |passed|
    decreases |passed| - j
  {
    if j == |passed| then None
    else
      var next := rate * factor;
      var c := if passed[j] then next else candidate;
      if factor > 1.0 && c != next then Some(c)
      else if factor < 1.0 && c > 0.0 then Some(c)
      else Search(passed, factor, next, c, j + 1)
  }

  /** The rate `AutoAdjustLearningRate` last sets on the net: the rate of
    * the probe the search stops at, or of the last probe when they run out
    * (`rate` itself when no probe is left). */
  function LastTried(passed: seq<bool>, factor: real, rate: real, candidate: real, j: nat): real
    requires j <= |passed|
    decreases |passed| - j
  {
    if j == |passed| then rate
    else
      var next := rate * factor;
      var c := if passed[j] then next else candidate;
      if (factor > 1.0 && c != next) || (factor < 1.0 && c > 0.0) then next
      else LastTried(passed, factor, next, c, j + 1)
  }

  /** The first probe at or after j whose verdict is `want`, or |passed|. */
  function FirstWith(passed: seq<bool>, j: nat, want: bool): (k: nat)
    requires j <= |passed|
    ensures j <= k <= |passed|
    ensures forall i :: j <= i < k ==> passed[i] != want
    ensures k < |passed| ==> passed[k] == want
    decreases |passed| - j
  {
    if j == |passed| || passed[j] == want then j else FirstWith(passed, j + 1, want)
  }

  lemma RatesDiffer(r: real, f: real)
    requires r > 0.0 && f > 1.0
    ensures r * f != r
  {
    assert r * f - r == r * (f - 1.0);
  }

  /** Every rate of a search from a positive rate with a positive factor is
    * positive. */
  lemma {:induction false} RatePositive(lr: real, f: real, k: nat)
    requires lr > 0.0 && f > 0.0
    ensures RateAt(lr, f, k) > 0.0
  {
    if k > 0 {
      RatePositive(lr, f, k - 1);
      var q := RateAt(lr, f, k - 1);
      assert q * f > 0.0;
    }
  }

  /** One round of the search, after which it either stops with the
    * candidate or goes on from the rate just tried. */
  lemma SearchRound(passed: seq<bool>, factor: real, rate: real, candidate: real, next: real, j: nat)
    requires j < |passed| && rate * factor == next
    ensures var c := if passed[j] then next else candidate;
      Search(passed, factor, rate, candidate, j)
        == if (factor > 1.0 && c != next) || (factor < 1.0 && c > 0.0) then Some(c)
           else Search(passed, factor, next, c, j + 1)
  {
  }

  /** Increasing (factor > 1): from probe j, tried at `rate`, the search
    * returns the rate of the last probe before the first failure, or -1
    * when the very first probe fails. */
  lemma {:induction false} SearchIncreasing(passed: seq<bool>, factor: real, lr: real, rate: real, j: nat)
    requires j <= |passed| && factor > 1.0 && lr > 0.0 && rate == RateAt(lr, factor, j)
    ensures var k := FirstWith(passed, j, false);
      Search(passed, factor, rate, if j == 0 then -1.0 else rate, j) ==
        if k == |passed| then None else Some(if k == 0 then -1.0 else RateAt(lr, factor, k))
    decreases |passed| - j
  {
    if j < |passed| {
      var next := RateAt(lr, factor, j + 1);
      RatePositive(lr, factor, j);
      SearchRound(passed, factor, rate, if j == 0 then -1.0 else rate, next, j);
      if passed[j] {
        assert FirstWith(passed, j, false) == FirstWith(passed, j + 1, false);
        SearchIncreasing(passed, factor, lr, next, j + 1);
      } else {
        assert FirstWith(passed, j, false) == j;
        if j > 0 {
          RatesDiffer(rate, factor);
          assert Search(passed, factor, rate, rate, j) == Some(rate);
        } else {
          assert Search(passed, factor, rate, -1.0, j) == Some(-1.0);
        }
      }
    }
  }

  /** Decreasing (0 < factor < 1): from probe j, tried at `rate`, the
    * search returns the rate of the first probe that passes. */
  lemma {:induction false} SearchDecreasing(passed: seq<bool>, factor: real, lr: real, rate: real, j: nat)
    requires j <= |passed| && 0.0 < factor < 1.0 && lr > 0.0 && rate == RateAt(lr, factor, j)
    ensures var k := FirstWith(passed, j, true);
      Search(passed, factor, rate, -1.0, j) ==
        if k == |passed| then None else Some(RateAt(lr, factor, k + 1))
    decreases |passed| - j
  {
    if j < |passed| {
      var next := RateAt(lr, factor, j + 1);
      RatePositive(lr, factor, j);
      SearchRound(passed, factor, rate, -1.0, next, j);
      if !passed[j] {
        SearchDecreasing(passed, factor, lr, next, j + 1);
      }
    }
  }

  /** One round of `LastTried`: the rate just tried when the search stops
    * there, the rest of the search otherwise. */
  lemma LastTriedRound(passed: seq<bool>, factor: real, rate: real, candidate: real, next: real, j: nat)
    requires j < |passed| && rate * factor == next
    ensures var c := if passed[j] then next else candidate;
      LastTried(passed, factor, rate, candidate, j)
        == if (factor > 1.0 && c != next) || (factor < 1.0 && c > 0.0) then next
           else LastTried(passed, factor, next, c, j + 1)
  {
  }

  /** Increasing (factor > 1): the last rate tried is that of the first
    * probe that fails, or of the last probe when none fails. */
  lemma {:induction false} LastTriedIncreasing(passed: seq<bool>, factor: real, lr: real, rate: real, j: nat)
    requires j <= |passed| && factor > 1.0 && lr > 0.0 && rate == RateAt(lr, factor, j)
    ensures LastTried(passed, factor, rate, if j == 0 then -1.0 else rate, j)
              == RateAt(lr, factor, Min(FirstWith(passed, j, false) + 1, |passed|))
    decreases |passed| - j
  {
    if j < |passed| {
      var next := RateAt(lr, factor, j + 1);
      RatePositive(lr, factor, j);
      LastTriedRound(passed, factor, rate, if j == 0 then -1.0 else rate, next, j);
      if passed[j] {
        assert FirstWith(passed, j, false) == FirstWith(passed, j + 1, false);
        LastTriedIncreasing(passed, factor, lr, next, j + 1);
      } else {
        assert FirstWith(passed, j, false) == j;
        if j > 0 {
          RatesDiffer(rate, factor);
        }
      }
    }
  }

  /** Decreasing (0 < factor < 1): the last rate tried is that of the first
    * probe that passes, which is the rate the search returns, or of the
    * last probe when none passes. */
  lemma {:induction false} LastTriedDecreasing(passed: seq<bool>, factor: real, lr: real, rate: real, j: nat)
    requires j <= |passed| && 0.0 < factor < 1.0 && lr > 0.0 && rate == RateAt(lr, factor, j)
    ensures LastTried(passed, factor, rate, -1.0, j) == RateAt(lr, factor, Min(FirstWith(passed, j, true) + 1, |passed|))
    decreases |passed| - j
  {
    if j < |passed| {
      var next := RateAt(lr, factor, j + 1);
      RatePositive(lr, factor, j);
      LastTriedRound(passed, factor, rate, -1.0, next, j);
      if passed[j] {
        assert FirstWith(passed, j, true) == j;
      } else {
        assert FirstWith(passed, j, true) == FirstWith(passed, j + 1, true);
        LastTriedDecreasing(passed, factor, lr, next, j + 1);
      }
    }
  }

  /** What `AutoInitializeLearningRate` settles on: the search upwards by
    * 2 from 0.05 and, when every rate tried there fails, downwards by 0.5
    * from 0.1. */
  function InitialRate(up: seq<seq<real>>, down: seq<seq<real>>, lim: RealLimits): Option<real>
    requires lim.Sane() && NonZeroProbes(up) && NonZeroProbes(down)
  {
    match Search(Verdicts(up, lim), 2.0, AutoInitialLearningRate, -1.0, 0)
    case None => None
    case Some(rate) =>
      if rate < 0.0 then Search(Verdicts(down, lim), 0.5, 2.0 * AutoInitialLearningRate, -1.0, 0)
      else Some(rate)
  }

  // ---------------------------------------------------------------------
  // The epoch loop (trainer.cc:57-87)
  // ---------------------------------------------------------------------

  /** One epoch of `Train` on the net's checkpoint `s`: train (leaving
    * `trained`), count the epoch, and either keep the better net and
    * write it, or reload the file, halve the pre-reload learning rate,
    * keep the new epoch number and write again. */
  function EpochStep(s: Checkpoint, files: Files, name: string, ppl: real, trained: seq<seq<seq<real>>>): Outcome<(Checkpoint, Files)>
  {
    var epoch := s.epoch + 1;
    if s.bestPerplexity > ppl then
      var t := Checkpoint(epoch, s.learningRate, ppl, trained);
      Done((t, Saved(files, name, t)))
    else match Loaded(files, name)
      case Fatal(why) => Fatal(why)
      case Done(onFile) =>
        var t := Checkpoint(epoch, 0.5 * s.learningRate, onFile.bestPerplexity, onFile.layers);
        Done((t, Saved(files, name, t)))
  }

  /** `Train` over the epochs `ppls` and `trained` describe, while the
    * epoch limit allows (0 meaning no limit). */
  function TrainRun(s: Checkpoint, files: Files, name: string, maxEpoch: int,
                    ppls: seq<real>, trained: seq<seq<seq<seq<real>>>>, k: nat): Outcome<(Checkpoint, Files)>
    requires k <= |ppls| == |trained|
    decreases |ppls| - k
  {
    if k == |ppls| || !(maxEpoch == 0 || s.epoch < maxEpoch) then Done((s, files))
    else match EpochStep(s, files, name, ppls[k], trained[k])
      case Fatal(why) => Fatal(why)
      case Done(next) => TrainRun(next.0, next.1, name, maxEpoch, ppls, trained, k + 1)
  }

  /** The file holds what the net holds, up to the epoch counter and the
    * learning rate, which the loop overwrites after reading. */
  ghost predicate OnFile(s: Checkpoint, files: Files, name: string)
  {
    name in files && files[name].bestPerplexity == s.bestPerplexity && files[name].layers == s.layers
  }

  function MinReal(a: real, b: real): real
  {
    if a <= b then a else b
  }

  /** One epoch: the epoch grows by one, the best perplexity becomes the
    * smaller of the old and the new, the learning rate halves exactly when
    * there is no improvement, the previous file survives as the backup,
    * and the file again holds the net. */
  lemma EpochStepFacts(s: Checkpoint, files: Files, name: string, ppl: real, trained: seq<seq<seq<real>>>)
    requires OnFile(s, files, name) || s.bestPerplexity > ppl
    ensures EpochStep(s, files, name, ppl, trained).Done?
    ensures var (t, after) := EpochStep(s, files, name, ppl, trained).value;
      && t.epoch == s.epoch + 1
      && t.bestPerplexity == MinReal(s.bestPerplexity, ppl)
      && t.learningRate == (if s.bestPerplexity > ppl then s.learningRate else 0.5 * s.learningRate)
      && t.layers == (if s.bestPerplexity > ppl then trained else s.layers)
      && after[name] == t
      && (name in files ==> after[name + ".bk"] == files[name])
      && OnFile(t, after, name)
  {
  }

  /** The loop's promise: it never fails once the file holds the net (or
    * the first epoch improves), the best perplexity never increases and
    * ends as the least of the start and the perplexities seen, and the
    * epoch counts the epochs run. */
  lemma {:induction false} TrainRunFacts(s: Checkpoint, files: Files, name: string, maxEpoch: int,
                                         ppls: seq<real>, trained: seq<seq<seq<seq<real>>>>, k: nat)
    requires k <= |ppls| == |trained|
    requires OnFile(s, files, name) || (k < |ppls| && s.bestPerplexity > ppls[k])
    ensures TrainRun(s, files, name, maxEpoch, ppls, trained, k).Done?
    ensures var (t, _) := TrainRun(s, files, name, maxEpoch, ppls, trained, k).value;
      && t.bestPerplexity <= s.bestPerplexity
      && s.epoch <= t.epoch <= s.epoch + (|ppls| - k)
      && (maxEpoch == 0 ==> t.epoch == s.epoch + (|ppls| - k))
      && forall j :: k <= j < k + (t.epoch - s.epoch) ==> t.bestPerplexity <= ppls[j]
    decreases |ppls| - k
  {
    if k < |ppls| && (maxEpoch == 0 || s.epoch < maxEpoch) {
      EpochStepFacts(s, files, name, ppls[k], trained[k]);
      var (t, after) := EpochStep(s, files, name, ppls[k], trained[k]).value;
      TrainRunFacts(t, after, name, maxEpoch, ppls, trained, k + 1);
    }
  }

  // ---------------------------------------------------------------------
  // The trainer
  // ---------------------------------------------------------------------

  class Trainer {
    const maxEpoch: int
    const shuffle: bool
    const isFeedforward: bool
    const netConfig: string
    const net: Net
    const trainingData: Data
    const limits: RealLimits
    var files: Files

    /** The constructor (trainer.cc:35-55). */
    constructor(maxEpoch: int, shuffle: bool, isFeedforward: bool, netConfig: string,
                net: Net, trainingData: Data, limits: RealLimits, files: Files)
      ensures this.maxEpoch == maxEpoch && this.shuffle == shuffle && this.isFeedforward == isFeedforward
      ensures this.netConfig == netConfig && this.net == net && this.trainingData == trainingData
      ensures this.limits == limits && this.files == files
    {
      this.maxEpoch := maxEpoch;
      this.shuffle := shuffle;
      this.isFeedforward := isFeedforward;
      this.netConfig := netConfig;
      this.net := net;
      this.trainingData := trainingData;
      this.limits := limits;
      this.files := files;
    }

    /** `Shuffle` (trainer.h:72-81): nothing unless shuffling is on;
      * otherwise the generator is reseeded from the seed and the epoch
      * (`combine` stands for `boost::hash_combine`) and the data are
      * shuffled with the draws it then makes. */
    method Shuffle(seed: nat, combine: (nat, int) -> nat, draws: seq<nat>) returns (reseed: Option<nat>)
      requires trainingData.maxBatchSize >= 1
      requires shuffle ==> ShuffleDraws(draws, |trainingData.data|)
      modifies trainingData
      ensures !shuffle ==> reseed == None && trainingData.data == old(trainingData.data)
      ensures shuffle ==> reseed == Some(combine(seed, net.epoch))
      ensures multiset(trainingData.data) == multiset(old(trainingData.data))
    {
      if !shuffle {
        return None;
      }
      reseed := Some(combine(seed, net.epoch));
      trainingData.Shuffle(draws);
    }

    /** `TrainBatch` (trainer.cc:113-140) with its backward loop written so
      * that it stops: forward over `begin()`..`end()`, backward over the
      * same positions in reverse, then the update pass and one momentum
      * step. `words` is what `num_running_words` grows by. */
    method TrainBatch(batch: Batch) returns (steps: seq<Step>, words: nat)
      requires batch.sequences != [] && |batch.sequences[0]| >= 1
      ensures steps == ForwardSteps(batch.sequences) + BackwardSteps(batch.sequences)
                       + [ResetHistoriesStep] + UpdateSteps(batch.sequences) + [MomentumStep]
      ensures words == SliceWords(batch.sequences, 1, |batch.sequences[0]|)
    {
      var seqs := batch.sequences;
      var forward, w := ForwardPass(batch, true);
      var backward := BackwardPass(batch);
      var update, _ := ForwardPass(batch, false);
      steps := forward + backward + [ResetHistoriesStep] + update + [MomentumStep];
      words := w;
    }

    /** The range-for over a batch (trainer.cc:117-123 and 134-138): each
      * slice is evaluated (or updated) on the slice before it. */
    static method ForwardPass(batch: Batch, evaluate: bool) returns (steps: seq<Step>, words: nat)
      requires batch.sequences != [] && |batch.sequences[0]| >= 1
      ensures steps == PassSteps(batch.sequences, evaluate)
      ensures words == SliceWords(batch.sequences, 1, |batch.sequences[0]|)
    {
      var seqs := batch.sequences;
      var start := batch.Begin(0);
      var previous := start.slice;
      var it := batch.Begin(1);
      var stop := batch.End(1);
      steps := [];
      words := 0;
      while !it.Equal(stop)
        invariant PassAt(seqs, it, previous, evaluate, steps, words)
        invariant stop.position == |seqs[0]|
        decreases |seqs[0]| - it.position
      {
        steps, words, previous := VisitSlice(seqs, it, previous, evaluate, steps, words);
      }
    }

    /** The state of a pass before the slice at `it`: the steps and the
      * words of the positions before it, and the slice before it. */
    static ghost predicate PassAt(seqs: seq<seq<int>>, it: BatchIterator, previous: seq<int>, evaluate: bool,
                                  steps: seq<Step>, words: nat)
      reads it
    {
      it.sequences == seqs && it.offset == 1 && PassState(seqs, it.position, it.slice, previous, evaluate, steps, words)
    }

    /** The same, for the iterator's position and slice. */
    static ghost predicate PassState(seqs: seq<seq<int>>, position: int, slice: seq<int>, previous: seq<int>, evaluate: bool,
                                     steps: seq<Step>, words: nat)
    {
      && seqs != [] && 1 <= position <= |seqs[0]|
      && slice == Slice(seqs, position, 1)
      && previous == (if position == 1 then Slice(seqs, 0, 0) else Slice(seqs, position - 1, 1))
      && steps == PassPrefix(seqs, position - 1, evaluate)
      && words == SliceWords(seqs, 1, position)
    }

    /** One position of a pass moves its state to the next position. */
    static lemma PassStateNext(seqs: seq<seq<int>>, p: nat, slice: seq<int>, previous: seq<int>, evaluate: bool,
                               steps: seq<Step>, words: nat, step: Step)
      requires PassState(seqs, p, slice, previous, evaluate, steps, words) && p < |seqs[0]|
      requires step == if evaluate then EvaluateStep(p, slice, Cast(previous)) else UpdateWeightsStep(p, slice, Cast(previous))
      ensures PassState(seqs, p + 1, Slice(seqs, p + 1, 1), slice, evaluate, steps + [step], words + |slice|)
    {
      assert Cast(previous) == InputAt(seqs, p - 1);
      assert step == PassStep(seqs, p - 1, evaluate);
      PassAdvances(seqs, p, evaluate, steps, words, step, slice);
    }

    /** One iteration of the range-for: the call on the slice at `it`,
      * given the slice before it, then `++it`. */
    static method VisitSlice(seqs: seq<seq<int>>, it: BatchIterator, previous: seq<int>, evaluate: bool,
                             steps: seq<Step>, words: nat)
      returns (steps': seq<Step>, words': nat, previous': seq<int>)
      requires PassAt(seqs, it, previous, evaluate, steps, words) && it.position < |seqs[0]|
      modifies it
      ensures PassAt(seqs, it, previous', evaluate, steps', words')
      ensures it.position == old(it.position) + 1
    {
      var p, slice := it.position, it.slice;
      var input := Cast(previous);
      var step := if evaluate then EvaluateStep(p, slice, input)
                  else UpdateWeightsStep(p, slice, input);
      PassStateNext(seqs, p, slice, previous, evaluate, steps, words, step);
      steps' := steps + [step];
      words' := words + |slice|;
      previous' := slice;
      it.Increment();
    }

    /** The backward pass, stopping at `Begin(1)` before it decrements past
      * it: `ComputeDelta` on the slices from the last position down to 1. */
    static method BackwardPass(batch: Batch) returns (steps: seq<Step>)
      requires batch.sequences != [] && |batch.sequences[0]| >= 1
      ensures steps == BackwardSteps(batch.sequences)
    {
      var seqs := batch.sequences;
      var it := batch.End(1);
      var first := batch.Begin(1);
      steps := [];
      while !it.Equal(first)
        invariant it.sequences == seqs && it.offset == 1 && 1 <= it.position <= |seqs[0]|
        invariant first.position == 1
        invariant |steps| == |seqs[0]| - it.position
        invariant forall k :: 0 <= k < |steps| ==> steps[k] == BackwardSteps(seqs)[k]
        decreases it.position
      {
        it.Decrement();
        steps := steps + [ComputeDeltaStep(it.position, it.slice)];
      }
    }

    /** `TrainBatchFeedforward` (trainer.cc:142-157). */
    static method TrainBatchFeedforward(batch: Batch) returns (steps: seq<seq<Step>>, words: nat)
      requires batch.sequences != [] && |batch.sequences[0]| >= 1
      ensures steps == FeedforwardSteps(batch.sequences)
      ensures words == SliceWords(batch.sequences, 1, |batch.sequences[0]|)
    {
      var seqs := batch.sequences;
      var start := batch.Begin(0);
      var previous := start.slice;
      var it := batch.Begin(1);
      var stop := batch.End(1);
      steps := [];
      words := 0;
      while !it.Equal(stop)
        invariant FeedforwardAtIterator(seqs, it, previous, steps, words)
        invariant stop.position == |seqs[0]|
        decreases |seqs[0]| - it.position
      {
        steps, words, previous := VisitFeedforward(seqs, it, previous, steps, words);
      }
    }

    /** The state of the feed-forward loop before the slice at `it`. */
    static ghost predicate FeedforwardAtIterator(seqs: seq<seq<int>>, it: BatchIterator, previous: seq<int>,
                                                 steps: seq<seq<Step>>, words: nat)
      reads it
    {
      && seqs != [] && it.sequences == seqs && it.offset == 1 && 1 <= it.position <= |seqs[0]|
      && it.slice == Slice(seqs, it.position, 1)
      && previous == (if it.position == 1 then Slice(seqs, 0, 0) else Slice(seqs, it.position - 1, 1))
      && steps == FeedforwardPrefix(seqs, it.position - 1)
      && words == SliceWords(seqs, 1, it.position)
    }

    /** One iteration of the feed-forward loop: reset, evaluate, delta,
      * update and momentum on the slice at `it`, then `++it`. */
    static method VisitFeedforward(seqs: seq<seq<int>>, it: BatchIterator, previous: seq<int>,
                                   steps: seq<seq<Step>>, words: nat)
      returns (steps': seq<seq<Step>>, words': nat, previous': seq<int>)
      requires FeedforwardAtIterator(seqs, it, previous, steps, words) && it.position < |seqs[0]|
      modifies it
      ensures FeedforwardAtIterator(seqs, it, previous', steps', words')
      ensures it.position == old(it.position) + 1
    {
      var p, slice := it.position, it.slice;
      var input := Cast(previous);
      assert input == InputAt(seqs, p - 1);
      var calls := [ResetStep(false), EvaluateStep(p, slice, input), ComputeDeltaStep(p, slice),
                    UpdateWeightsStep(p, slice, input), MomentumStep];
      assert calls == FeedforwardAt(seqs, p - 1);
      steps' := steps + [calls];
      words' := words + |slice|;
      previous' := slice;
      it.Increment();
    }

    /** The net calls of one batch of an epoch (trainer.cc:92-100): a
      * reset, the histories cleared, then the batch's passes. */
    function BatchPlan(seqs: seq<seq<int>>): seq<Step>
      requires seqs != [] && |seqs[0]| >= 1
    {
      [ResetStep(false), ResetHistoriesStep]
      + if isFeedforward then Flatten(FeedforwardSteps(seqs))
        else ForwardSteps(seqs) + BackwardSteps(seqs) + [ResetHistoriesStep] + UpdateSteps(seqs) + [MomentumStep]
    }

    /** `TrainEpoch` (trainer.cc:89-111): the range-for over the training
      * data yields its batch windows, and each window is trained in turn;
      * the weights the epoch leaves behind are `trained`. */
    method TrainEpoch(trained: seq<seq<seq<real>>>) returns (windows: seq<seq<seq<int>>>, steps: seq<seq<Step>>)
      requires trainingData.maxBatchSize >= 1
      requires forall s :: s in trainingData.data ==> |s| >= 1
      modifies net
      ensures Flatten(windows) == trainingData.data && |windows| == trainingData.GetNumBatches()
      ensures forall j :: 0 <= j < |windows| ==> 1 <= |windows[j]| <= trainingData.maxBatchSize
      ensures forall j :: 0 <= j < |windows| - 1 ==> |windows[j]| == trainingData.maxBatchSize
      ensures |steps| == |windows|
      ensures forall j :: 0 <= j < |windows| ==> |windows[j][0]| >= 1 && steps[j] == BatchPlan(windows[j])
      ensures net.weights == trained && net.Header() == old(net.Header())
      ensures net.momentum == old(net.momentum) && net.layers == old(net.layers)
    {
      windows := Batches(trainingData);
      forall j | 0 <= j < |windows|
        ensures |windows[j][0]| >= 1
      {
        FlattenHolds(windows, j, windows[j][0]);
      }
      steps := TrainWindows(windows);
      ApplyTrained(trained);
    }

    /** The loop body of `TrainEpoch` (trainer.cc:92-100) over every window:
      * a reset, the histories cleared, then the window's passes. */
    method TrainWindows(windows: seq<seq<seq<int>>>) returns (steps: seq<seq<Step>>)
      requires forall j :: 0 <= j < |windows| ==> windows[j] != [] && |windows[j][0]| >= 1
      ensures |steps| == |windows|
      ensures forall j :: 0 <= j < |windows| ==> steps[j] == BatchPlan(windows[j])
    {
      steps := [];
      for j := 0 to |windows|
        invariant |steps| == j
        invariant forall i :: 0 <= i < j ==> steps[i] == BatchPlan(windows[i])
      {
        var batch := new Batch(windows[j]);
        var passes: seq<Step>;
        if isFeedforward {
          var perPosition, words := TrainBatchFeedforward(batch);
          passes := Flatten(perPosition);
        } else {
          var words;
          passes, words := TrainBatch(batch);
        }
        steps := steps + [[ResetStep(false), ResetHistoriesStep] + passes];
      }
    }

    /** The effect of an epoch's training on the net: the weights become
      * `trained`; the header, the momentum and the topology stay. */
    method ApplyTrained(trained: seq<seq<seq<real>>>)
      modifies net
      ensures net.weights == trained && net.Header() == old(net.Header())
      ensures net.momentum == old(net.momentum) && net.layers == old(net.layers)
      ensures net.outputDimension == old(net.outputDimension)
    {
      net.weights := trained;
    }

    /** `Train` (trainer.cc:57-87) over the epochs the inputs describe:
      * `ppls[k]` is the development perplexity after epoch k, `trained[k]`
      * the weights its training leaves. Shuffling and the epoch's batches
      * are left to `Shuffle` and `TrainBatch`. */
    method Train(ppls: seq<real>, trained: seq<seq<seq<seq<real>>>>) returns (r: Outcome<()>)
      requires |ppls| == |trained|
      modifies net, this
      ensures var run := TrainRun(old(net.Snapshot()), old(files), netConfig, maxEpoch, ppls, trained, 0);
        && (r.IsFatal() <==> run.IsFatal())
        && (r.Done? ==> net.Snapshot() == run.value.0 && files == run.value.1)
      ensures net.momentum == old(net.momentum) && net.layers == old(net.layers)
    {
      var k := 0;
      while k < |ppls| && (maxEpoch == 0 || net.epoch < maxEpoch)
        invariant k <= |ppls|
        invariant TrainRun(net.Snapshot(), files, netConfig, maxEpoch, ppls, trained, k)
                  == TrainRun(old(net.Snapshot()), old(files), netConfig, maxEpoch, ppls, trained, 0)
        invariant net.momentum == old(net.momentum) && net.layers == old(net.layers)
        decreases |ppls| - k
      {
        var epoch := Epoch(ppls[k], trained[k]);
        if epoch.Fatal? {
          return epoch;
        }
        k := k + 1;
      }
      r := Done(());
    }

    /** One pass of `Train`'s loop: train, count the epoch, then keep the
      * net if the perplexity improved or reload it with half the rate. */
    method Epoch(perplexity: real, weights: seq<seq<seq<real>>>) returns (r: Outcome<()>)
      modifies net, this
      ensures var step := EpochStep(old(net.Snapshot()), old(files), netConfig, perplexity, weights);
        && (r.Fatal? <==> step.Fatal?)
        && (r.Done? ==> step == Done((net.Snapshot(), files)))
      ensures net.momentum == old(net.momentum) && net.layers == old(net.layers)
    {
      ApplyTrained(weights);
      net.SetEpoch(net.epoch + 1);
      if net.bestPerplexity > perplexity {
        net.SetBestPerplexity(perplexity);
        files := net.WriteFile(files, netConfig);
      } else {
        var newEpoch := net.epoch;
        var newLearningRate := 0.5 * net.learningRate;
        var loaded := net.ReadFile(files, netConfig);
        if loaded.Fatal? {
          return Fatal(loaded.reason);
        }
        net.SetLearningRate(newLearningRate);
        net.SetEpoch(newEpoch);
        files := net.WriteFile(files, netConfig);
      }
      r := Done(());
    }

    /** `AutoAdjustLearningRate` (trainer.cc:159-213) over the probes the
      * inputs describe: `probes[j]` holds the batch perplexities probe j
      * would see, `drawn` the weights a randomization from `seed` draws.
      * After every probe the momentum is reset and the weights redrawn. */
    method AutoAdjustLearningRate(factor: real, learningRate: real, probes: seq<seq<real>>,
                                  drawn: seq<seq<seq<real>>>) returns (r: Outcome<Option<real>>)
      requires limits.Sane() && NonZeroProbes(probes)
      requires trainingData.maxBatchSize >= 1
      requires forall j :: 0 <= j < |probes| ==> |probes[j]| <= trainingData.GetNumBatches()
      modifies net
      ensures r.IsFatal() <==> factor == 1.0
      ensures r.Done? ==> r.value == Search(Verdicts(probes, limits), factor, learningRate, -1.0, 0)
      ensures r.Done? && probes != [] ==> net.weights == drawn
      ensures net.learningRate ==
                if r.Done? && probes != [] then LastTried(Verdicts(probes, limits), factor, learningRate, -1.0, 0)
                else old(net.learningRate)
      ensures net.epoch == old(net.epoch) && net.bestPerplexity == old(net.bestPerplexity)
      ensures net.layers == old(net.layers) && net.momentum == old(net.momentum)
    {
      if factor == 1.0 {
        return Fatal("factor 1 would not move the rate");
      }
      var rate := learningRate;
      var candidate := -1.0;
      var j := 0;
      while j < |probes|
        invariant j <= |probes|
        invariant Search(Verdicts(probes, limits), factor, rate, candidate, j) == Search(Verdicts(probes, limits), factor, learningRate, -1.0, 0)
        invariant j > 0 ==> net.weights == drawn
        invariant LastTried(Verdicts(probes, limits), factor, rate, candidate, j)
                  == LastTried(Verdicts(probes, limits), factor, learningRate, -1.0, 0)
        invariant net.learningRate == if j > 0 then rate else old(net.learningRate)
        invariant net.epoch == old(net.epoch) && net.bestPerplexity == old(net.bestPerplexity)
        invariant net.layers == old(net.layers) && net.momentum == old(net.momentum)
        decreases |probes| - j
      {
        rate := rate * factor;
        net.SetLearningRate(rate);
        var result := RunProbe(probes[j], limits);
        if result.passed {
          ProbePassed(probes[j], limits, 0, limits.largest, 0, 0);
          assert ProbeRunning(0, 0);
          candidate := rate;
        }
        var _ := net.VisitAll((k: nat) => ResetMomentumCall(k));
        var _ := net.RandomizeWeights(drawn);
        if factor > 1.0 && candidate != rate {
          return Done(Some(candidate));
        }
        if factor < 1.0 && candidate > 0.0 {
          return Done(Some(candidate));
        }
        j := j + 1;
      }
      r := Done(None);
    }

    /** `AutoInitializeLearningRate` (trainer.cc:215-237): at least
      * `MaxNumBatches` batches are needed; the rate search goes up by 2 from
      * 0.05 and, when that finds nothing, down by 0.5 from 0.1. The chosen
      * rate is set and the weights are redrawn. */
    method AutoInitializeLearningRate(seed: nat, combine: (nat, int) -> nat, draws: seq<nat>,
                                      up: seq<seq<real>>, down: seq<seq<real>>,
                                      drawn: seq<seq<seq<real>>>) returns (r: Outcome<Option<real>>)
      requires limits.Sane() && NonZeroProbes(up) && NonZeroProbes(down)
      requires trainingData.maxBatchSize >= 1
      requires forall j :: 0 <= j < |up| ==> |up[j]| <= trainingData.GetNumBatches()
      requires forall j :: 0 <= j < |down| ==> |down[j]| <= trainingData.GetNumBatches()
      requires shuffle ==> ShuffleDraws(draws, |trainingData.data|)
      modifies net, trainingData
      ensures r.IsFatal() <==> old(trainingData.GetNumBatches()) < MaxNumBatches
      ensures multiset(trainingData.data) == multiset(old(trainingData.data))
      ensures r.Done? ==> r.value == InitialRate(up, down, limits)
      ensures r.Done? && r.value.Some? ==> net.learningRate == r.value.value && net.weights == drawn
    {
      if trainingData.GetNumBatches() < MaxNumBatches {
        return Fatal("too few batches to probe learning rates");
      }
      ghost var batches := trainingData.GetNumBatches();
      var _ := Shuffle(seed, combine, draws);
      assert |trainingData.data| == |multiset(trainingData.data)| == |old(trainingData.data)|;
      assert trainingData.GetNumBatches() == batches;
      var increased := AutoAdjustLearningRate(2.0, AutoInitialLearningRate, up, drawn);
      if increased.value.None? {
        return Done(None);
      }
      var rate := increased.value.value;
      if rate < 0.0 {
        var decreased := AutoAdjustLearningRate(0.5, 2.0 * AutoInitialLearningRate, down, drawn);
        if decreased.value.None? {
          return Done(None);
        }
        rate := decreased.value.value;
      }
      net.SetLearningRate(rate);
      var _ := net.RandomizeWeights(drawn);
      r := Done(Some(rate));
    }
  }
}
