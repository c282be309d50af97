/**
 * Small value types and sequence folds shared by the rest of the model.
 */
module Common {

  datatype Option<T> = None | Some(value: T)

  /** The outcome of an operation that may stop the program on a failed `assert`. */
  datatype Outcome<T> = Done(value: T) | Fatal(reason: string)
  {
    predicate IsFatal() { Fatal? }
  }

  /** Concatenation of a sequence of sequences, in order. */
  function Flatten<T>(ss: seq<seq<T>>): seq<T>
  {
    if ss == [] then [] else ss[0] + Flatten(ss[1..])
  }

  lemma {:induction false} FlattenAppend<T>(ss: seq<seq<T>>, tt: seq<seq<T>>)
    ensures Flatten(ss + tt) == Flatten(ss) + Flatten(tt)
  {
    if ss == [] {
      assert ss + tt == tt;
    } else {
      assert (ss + tt)[1..] == ss[1..] + tt;
      FlattenAppend(ss[1..], tt);
    }
  }

  lemma FlattenSingle<T>(s: seq<T>)
    ensures Flatten([s]) == s
  {
    assert [s][1..] == [];
  }

  /** Every element of a member sequence is an element of the concatenation. */
  lemma {:induction false} FlattenHolds<T>(ss: seq<seq<T>>, k: nat, x: T)
    requires k < |ss| && x in ss[k]
    ensures x in Flatten(ss)
  {
    if k > 0 {
      FlattenHolds(ss[1..], k - 1, x);
    }
  }

  /** Total length of all member sequences. */
  function TotalLength<T>(ss: seq<seq<T>>): nat
  {
    if ss == [] then 0 else |ss[0]| + TotalLength(ss[1..])
  }

  lemma {:induction false} TotalLengthIsFlattenLength<T>(ss: seq<seq<T>>)
    ensures TotalLength(ss) == |Flatten(ss)|
  {
    if ss != [] {
      TotalLengthIsFlattenLength(ss[1..]);
    }
  }

  lemma {:induction false} TotalLengthAppend<T>(ss: seq<seq<T>>, tt: seq<seq<T>>)
    ensures TotalLength(ss + tt) == TotalLength(ss) + TotalLength(tt)
  {
    FlattenAppend(ss, tt);
    TotalLengthIsFlattenLength(ss + tt);
    TotalLengthIsFlattenLength(ss);
    TotalLengthIsFlattenLength(tt);
  }

  lemma TotalLengthSnoc<T>(ss: seq<seq<T>>, s: seq<T>)
    ensures TotalLength(ss + [s]) == TotalLength(ss) + |s|
  {
    TotalLengthAppend(ss, [s]);
    assert [s][1..] == [];
  }

  /** Sum of a sequence of integers. */
  function Sum(s: seq<int>): int
  {
    if s == [] then 0 else s[0] + Sum(s[1..])
  }

  lemma {:induction false} SumAppend(s: seq<int>, t: seq<int>)
    ensures Sum(s + t) == Sum(s) + Sum(t)
  {
    if s == [] {
      assert s + t == t;
    } else {
      assert (s + t)[1..] == s[1..] + t;
      SumAppend(s[1..], t);
    }
  }

  /** Product of a sequence of naturals. */
  function Product(s: seq<nat>): nat
  {
    if s == [] then 1 else s[0] * Product(s[1..])
  }

  lemma {:induction false} ProductSnoc(s: seq<nat>, x: nat)
    ensures Product(s + [x]) == Product(s) * x
  {
    if s == [] {
      assert s + [x] == [x];
    } else {
      assert (s + [x])[1..] == s[1..] + [x];
      ProductSnoc(s[1..], x);
    }
  }

  function Last<T>(s: seq<T>): T
    requires s != []
  {
    s[|s| - 1]
  }

  function Min(a: int, b: int): int
  {
    if a <= b then a else b
  }

  // Arithmetic facts the solver does not find on its own.

  lemma LessFromMul(x: int, y: int, b: int)
    requires b >= 1 && x * b < y * b
    ensures x < y
  {
    assert (y - x) * b > 0;
  }

  lemma DivIsUnique(a: int, b: int, k: int)
    requires b >= 1 && k * b <= a < (k + 1) * b
    ensures a / b == k
  {
    var q := a / b;
    assert q * b <= a < (q + 1) * b;
    LessFromMul(k, q + 1, b);
    LessFromMul(q, k + 1, b);
  }

  lemma MulSucc(n: nat, b: nat)
    ensures (n + 1) * b == n * b + b
  {
  }

  lemma MulMonotone(a: nat, b: nat, n: nat)
    requires a <= b
    ensures a * n <= b * n
  {
    assert b * n - a * n == (b - a) * n;
  }

  /** An index below size * order lies in one of the first `size` rows. */
  lemma DivBelow(i: nat, order: nat, size: nat)
    requires order >= 1 && i < size * order
    ensures i / order < size
  {
    var q := i / order;
    assert q * order <= i;
    LessFromMul(q, size, order);
  }

  /** Euclidean division: quotient times divisor plus remainder. */
  lemma DivModParts(k: nat, m: nat)
    requires m >= 1
    ensures k == (k / m) * m + k % m && 0 <= k % m < m
  {
  }

  /** Dividing i by b after taking one b off. */
  lemma DivModShift(i: int, b: int)
    requires b >= 1 && i >= b
    ensures i / b == (i - b) / b + 1 && i % b == (i - b) % b
  {
    var q := (i - b) / b;
    assert q * b <= i - b < (q + 1) * b;
    MulSucc(q, b);
    MulSucc(q + 1, b);
    DivIsUnique(i, b, q + 1);
  }
}
