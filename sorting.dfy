/**
 * A comparison sort over any total preorder. The model uses it where the
 * source calls a library sort: `std::sort` on each batch window of the
 * training data, and Python's `sorted` when ranking candidate words.
 */
module Sorting {

  ghost predicate TotalPreorder<T(!new)>(le: (T, T) -> bool)
  {
    && (forall a: T, b: T :: le(a, b) || le(b, a))
    && (forall a: T, b: T, c: T :: le(a, b) && le(b, c) ==> le(a, c))
  }

  /** Every earlier element is `le` every later one. */
  predicate SortedBy<T>(s: seq<T>, le: (T, T) -> bool)
  {
    forall i, j :: 0 <= i < j < |s| ==> le(s[i], s[j])
  }

  /** Inserts `x` into the sorted `s` before the first element it precedes. */
  function Insert<T(!new)>(x: T, s: seq<T>, le: (T, T) -> bool): (r: seq<T>)
    requires TotalPreorder(le)
    requires SortedBy(s, le)
    ensures SortedBy(r, le)
    ensures multiset(r) == multiset(s) + multiset{x}
    ensures |r| == |s| + 1
  {
    if s == [] then [x]
    else if le(x, s[0]) then
      assert forall j :: 0 <= j < |s| ==> le(x, s[j]) by {
        forall j | 0 <= j < |s| ensures le(x, s[j]) {
          if j > 0 { assert le(s[0], s[j]); }
        }
      }
      [x] + s
    else
      var rest := Insert(x, s[1..], le);
      assert le(s[0], x);
      assert s == [s[0]] + s[1..];
      assert forall j :: 0 <= j < |rest| ==> le(s[0], rest[j]) by {
        forall j | 0 <= j < |rest| ensures le(s[0], rest[j]) {
          assert rest[j] in multiset(rest);
          assert rest[j] == x || rest[j] in multiset(s[1..]);
          if rest[j] != x {
            var k :| 0 <= k < |s[1..]| && s[1..][k] == rest[j];
            assert le(s[0], s[k + 1]);
          }
        }
      }
      [s[0]] + rest
  }

  /** Under an antisymmetric order a sorted permutation is unique: two
    * sorted sequences with the same elements are equal. */
  lemma {:induction false} SortedUnique<T>(r: seq<T>, q: seq<T>, le: (T, T) -> bool)
    requires forall a: T, b: T :: le(a, b) && le(b, a) ==> a == b
    requires SortedBy(r, le) && SortedBy(q, le) && multiset(r) == multiset(q)
    ensures r == q
  {
    if r == [] {
      assert |multiset(q)| == 0;
    } else {
      SortedHeads(r, q, le);
      assert multiset(r[1..]) == multiset(q[1..]) by {
        assert r == [r[0]] + r[1..] && q == [q[0]] + q[1..];
        assert multiset(r[1..]) == multiset(r) - multiset{r[0]};
        assert multiset(q[1..]) == multiset(q) - multiset{q[0]};
      }
      SortedTail(r, le);
      SortedTail(q, le);
      SortedUnique(r[1..], q[1..], le);
      assert r == [r[0]] + r[1..] && q == [q[0]] + q[1..];
    }
  }

  /** Two sorted sequences with the same elements start alike. */
  lemma SortedHeads<T>(r: seq<T>, q: seq<T>, le: (T, T) -> bool)
    requires forall a: T, b: T :: le(a, b) && le(b, a) ==> a == b
    requires r != [] && SortedBy(r, le) && SortedBy(q, le) && multiset(r) == multiset(q)
    ensures q != [] && r[0] == q[0]
  {
    assert r[0] in multiset(r);
    var k :| 0 <= k < |q| && q[k] == r[0];
    assert q[0] in multiset(q);
    var m :| 0 <= m < |r| && r[m] == q[0];
    if k > 0 && m > 0 {
      assert le(q[0], q[k]) && le(r[0], r[m]);
    }
  }

  lemma SortedTail<T>(s: seq<T>, le: (T, T) -> bool)
    requires s != [] && SortedBy(s, le)
    ensures SortedBy(s[1..], le)
  {
    forall i, j | 0 <= i < j < |s[1..]|
      ensures le(s[1..][i], s[1..][j])
    {
      assert s[1..][i] == s[i + 1] && s[1..][j] == s[j + 1];
    }
  }

  /** Insertion sort: a sorted permutation of `s`. */
  function Sort<T(!new)>(s: seq<T>, le: (T, T) -> bool): (r: seq<T>)
    requires TotalPreorder(le)
    ensures SortedBy(r, le)
    ensures multiset(r) == multiset(s)
    ensures |r| == |s|
  {
    if s == [] then []
    else
      assert s == [s[0]] + s[1..];
      Insert(s[0], Sort(s[1..], le), le)
  }
}
