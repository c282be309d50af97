/**
 * The random train/validation split of seperate_train_val_random.py: the
 * corpus lines are shuffled by swapping every position with a random other
 * position, then the first 1500 lines become the validation set and the rest
 * the training set. The generator's answers are a parameter: `draws[i]` is
 * what `random.randrange(len - 1)` returned at position i.
 */
module TrainValSplit {
  import opened Common

  const ValidationSize: nat := 1500

  /** seperate_train_val_random.py:15-16: a draw in [0, n-2] shifted past
    * `index`, so that it names any position but `index`. */
  function SwapPartner(draw: nat, index: nat): (r: nat)
    ensures r != index
    ensures r == draw || r == draw + 1
  {
    draw + (if draw >= index then 1 else 0)
  }

  lemma SwapPartnerRange(n: nat, index: nat, draw: nat)
    requires index < n && draw < n - 1
    ensures SwapPartner(draw, index) < n
  {
  }

  /** Every position p other than `index` is the partner of one allowed draw,
    * and of no other. */
  lemma SwapPartnerOnto(n: nat, index: nat, p: nat, draw: nat)
    requires index < n && p < n && p != index
    ensures var d := if p > index then p - 1 else p;
            d < n - 1 && SwapPartner(d, index) == p && (SwapPartner(draw, index) == p ==> draw == d)
  {
  }

  /** One draw per position, each below len - 1. */
  predicate ValidDraws(draws: seq<nat>, n: nat)
  {
    |draws| == n && forall k :: 0 <= k < |draws| ==> draws[k] < n - 1
  }

  function Swap<T>(s: seq<T>, i: nat, j: nat): (r: seq<T>)
    requires i < |s| && j < |s|
    ensures |r| == |s| && r[i] == s[j] && r[j] == s[i]
    ensures forall k :: 0 <= k < |s| && k != i && k != j ==> r[k] == s[k]
  {
    s[i := s[j]][j := s[i]]
  }

  /** A swap only reorders the elements. */
  lemma SwapIsPermutation<T>(s: seq<T>, i: nat, j: nat)
    requires i < |s| && j < |s|
    ensures multiset(Swap(s, i, j)) == multiset(s)
  {
    assert multiset(s[i := s[j]]) == multiset(s) - multiset{s[i]} + multiset{s[j]};
  }

  /** The list after the swaps at positions 0 .. k-1. */
  function ShuffledPrefix<T>(s: seq<T>, draws: seq<nat>, k: nat): (r: seq<T>)
    requires ValidDraws(draws, |s|) && k <= |s|
    ensures |r| == |s|
  {
    if k == 0 then s
    else
      var before := ShuffledPrefix(s, draws, k - 1);
      SwapPartnerRange(|s|, k - 1, draws[k - 1]);
      Swap(before, k - 1, SwapPartner(draws[k - 1], k - 1))
  }

  lemma {:induction false} ShuffledPrefixIsPermutation<T>(s: seq<T>, draws: seq<nat>, k: nat)
    requires ValidDraws(draws, |s|) && k <= |s|
    ensures multiset(ShuffledPrefix(s, draws, k)) == multiset(s)
  {
    if k > 0 {
      ShuffledPrefixIsPermutation(s, draws, k - 1);
      SwapPartnerRange(|s|, k - 1, draws[k - 1]);
      SwapIsPermutation(ShuffledPrefix(s, draws, k - 1), k - 1, SwapPartner(draws[k - 1], k - 1));
    }
  }

  /** The list after all swaps: a permutation of the input. */
  function Shuffled<T>(s: seq<T>, draws: seq<nat>): (r: seq<T>)
    requires ValidDraws(draws, |s|)
    ensures |r| == |s| && multiset(r) == multiset(s)
  {
    ShuffledPrefixIsPermutation(s, draws, |s|);
    ShuffledPrefix(s, draws, |s|)
  }

  /** `shuffle_in_place` (seperate_train_val_random.py:11-17): fails its
    * assertion on two or fewer elements, otherwise swaps every position with
    * its partner in turn. */
  method ShuffleInPlace<T>(a: array<T>, draws: seq<nat>) returns (r: Outcome<()>)
    requires a.Length > 2 ==> ValidDraws(draws, a.Length)
    modifies a
    ensures r.Fatal? <==> a.Length <= 2
    ensures r.Fatal? ==> a[..] == old(a[..])
    ensures r.Done? ==> a[..] == Shuffled(old(a[..]), draws)
  {
    var arrayLen := a.Length;
    if arrayLen <= 2 {
      return Fatal("Array is too short to shuffle!");
    }
    SwapAll(a, draws);
    r := Done(());
  }

  /** The loop of seperate_train_val_random.py:14-17. */
  method SwapAll<T>(a: array<T>, draws: seq<nat>)
    requires ValidDraws(draws, a.Length)
    modifies a
    ensures a[..] == Shuffled(old(a[..]), draws)
  {
    ghost var s := a[..];
    var index := 0;
    while index < a.Length
      invariant 0 <= index <= a.Length
      invariant a[..] == ShuffledPrefix(s, draws, index)
    {
      var swap := draws[index];
      swap := swap + (if swap >= index then 1 else 0);
      assert swap == SwapPartner(draws[index], index);
      SwapPartnerRange(a.Length, index, draws[index]);
      ghost var before := a[..];
      SwapElements(a, index, swap);
      assert a[..] == Swap(before, index, swap);
      index := index + 1;
    }
  }

  /** `array[index], array[swap] = array[swap], array[index]`. */
  method SwapElements<T>(a: array<T>, i: nat, j: nat)
    requires i < a.Length && j < a.Length
    modifies a
    ensures a[..] == Swap(old(a[..]), i, j)
  {
    a[i], a[j] := a[j], a[i];
  }

  /** `shuffle` (seperate_train_val_random.py:7-10): shuffles a copy. */
  method Shuffle<T>(s: seq<T>, draws: seq<nat>) returns (r: Outcome<seq<T>>)
    requires |s| > 2 ==> ValidDraws(draws, |s|)
    ensures r.Fatal? <==> |s| <= 2
    ensures r.Done? ==> r.value == Shuffled(s, draws)
  {
    var copy := new T[|s|](i requires 0 <= i < |s| => s[i]);
    assert copy[..] == s;
    var done := ShuffleInPlace(copy, draws);
    if done.Fatal? {
      return Fatal(done.reason);
    }
    r := Done(copy[..]);
  }

  /** seperate_train_val_random.py:22-23: the first 1500 lines and the rest,
    * slicing clamped to the list's length. */
  function SplitAt<T>(s: seq<T>): (r: (seq<T>, seq<T>))
    ensures |r.0| == Min(ValidationSize, |s|)
    ensures r.0 + r.1 == s
  {
    var cut := Min(ValidationSize, |s|);
    assert s[..cut] + s[cut..] == s;
    (s[..cut], s[cut..])
  }

  /** The script (seperate_train_val_random.py:19-28): the validation and
    * training lines together are a permutation of the corpus, with at most
    * 1500 lines held out. */
  method Run(lines: seq<string>, draws: seq<nat>) returns (r: Outcome<(seq<string>, seq<string>)>)
    requires |lines| > 2 ==> ValidDraws(draws, |lines|)
    ensures r.Fatal? <==> |lines| <= 2
    ensures r.Done? ==> r.value.0 + r.value.1 == Shuffled(lines, draws)
    ensures r.Done? ==> multiset(r.value.0 + r.value.1) == multiset(lines)
    ensures r.Done? ==> |r.value.0| == Min(ValidationSize, |lines|)
  {
    var randline := Shuffle(lines, draws);
    if randline.Fatal? {
      return Fatal(randline.reason);
    }
    r := Done(SplitAt(randline.value));
  }
}
