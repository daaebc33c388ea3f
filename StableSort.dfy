/**
 * Kotlin's `filter` and its stable `sortedWith`, on sequences. The order is
 * given by `le(a, b)`: "`a` may stand before `b`" (a comparator's `<= 0`).
 * The sort is an insertion sort: modelled by its result, not by the merge
 * sort the Kotlin library runs, which yields the same sequence for a stable
 * order.
 */
module StableSort {

  /** `le` is total and transitive, as a comparator's `<= 0` is. */
  ghost predicate TotalPreorder<T(!new)>(le: (T, T) -> bool) {
    (forall a, b :: le(a, b) || le(b, a)) &&
    (forall a, b, c :: le(a, b) && le(b, c) ==> le(a, c))
  }

  /** `a` and `b` compare equal. */
  predicate Equiv<T>(le: (T, T) -> bool, a: T, b: T) {
    le(a, b) && le(b, a)
  }

  predicate Sorted<T>(s: seq<T>, le: (T, T) -> bool) {
    forall i, j :: 0 <= i < j < |s| ==> le(s[i], s[j])
  }

  /** `s.filter(p)`: the elements satisfying `p`, in their order. */
  function Filter<T>(s: seq<T>, p: T -> bool): (r: seq<T>)
    ensures |r| <= |s|
    ensures forall i :: 0 <= i < |r| ==> r[i] in s && p(r[i])
    ensures forall i :: 0 <= i < |s| && p(s[i]) ==> s[i] in r
  {
    if s == [] then [] else (if p(s[0]) then [s[0]] else []) + Filter(s[1..], p)
  }

  lemma {:induction false} FilterAppend<T>(a: seq<T>, b: seq<T>, p: T -> bool)
    ensures Filter(a + b, p) == Filter(a, p) + Filter(b, p)
  {
    if a == [] {
      assert a + b == b;
    } else {
      assert (a + b)[1..] == a[1..] + b;
      FilterAppend(a[1..], b, p);
    }
  }

  /** The positions of `s` whose element satisfies `p`. */
  function Positions<T>(s: seq<T>, p: T -> bool): set<int> {
    set i | 0 <= i < |s| && p(s[i])
  }

  /** `count(p)`: the filter keeps exactly as many elements as there are positions satisfying `p`. */
  lemma {:induction false} FilterCount<T>(s: seq<T>, p: T -> bool)
    ensures |Filter(s, p)| == |Positions(s, p)|
  {
    if s != [] {
      var n := |s| - 1;
      FilterCount(s[..n], p);
      assert s == s[..n] + [s[n]];
      FilterAppend(s[..n], [s[n]], p);
      assert Filter([s[n]], p) == if p(s[n]) then [s[n]] else [];
      PositionsStep(s, p);
    }
  }

  /** The positions satisfying `p` grow by the last position exactly when it satisfies `p`. */
  lemma PositionsStep<T>(s: seq<T>, p: T -> bool)
    requires s != []
    ensures var n := |s| - 1;
            |Positions(s, p)| == |Positions(s[..n], p)| + (if p(s[n]) then 1 else 0)
  {
    var n := |s| - 1;
    var before := Positions(s[..n], p);
    var all := Positions(s, p);
    assert forall i :: 0 <= i < n ==> s[..n][i] == s[i];
    assert forall i :: i in all <==> i in before || (i == n && p(s[n]));
    if p(s[n]) {
      assert all == before + {n};
      assert n !in before;
    } else {
      assert all == before;
    }
  }

  /** Filtering with two predicates that agree everywhere gives the same result. */
  lemma {:induction false} FilterCongruent<T>(s: seq<T>, p: T -> bool, q: T -> bool)
    requires forall x :: p(x) == q(x)
    ensures Filter(s, p) == Filter(s, q)
  {
    if s != [] {
      FilterCongruent(s[1..], p, q);
    }
  }

  /** A filter nothing passes is empty. */
  lemma {:induction false} FilterNone<T>(s: seq<T>, p: T -> bool)
    requires forall x :: x in s ==> !p(x)
    ensures Filter(s, p) == []
  {
    if s != [] {
      FilterNone(s[1..], p);
    }
  }

  /** `a` is `b` with some elements left out: same order, nothing added. */
  ghost predicate IsSubsequence<T>(a: seq<T>, b: seq<T>)
    decreases |b|
  {
    a == [] || (b != [] && ((a[0] == b[0] && IsSubsequence(a[1..], b[1..])) || IsSubsequence(a, b[1..])))
  }

  lemma {:induction false} FilterSubsequence<T>(s: seq<T>, p: T -> bool)
    ensures IsSubsequence(Filter(s, p), s)
  {
    if s != [] {
      var rest := Filter(s[1..], p);
      FilterSubsequence(s[1..], p);
      if p(s[0]) {
        assert Filter(s, p) == [s[0]] + rest;
        assert ([s[0]] + rest)[1..] == rest;
      } else {
        assert Filter(s, p) == rest;
      }
    }
  }

  /** Filtering twice with the same test is filtering once. */
  lemma {:induction false} FilterIdempotent<T>(s: seq<T>, p: T -> bool)
    ensures Filter(Filter(s, p), p) == Filter(s, p)
  {
    if s != [] {
      var rest := Filter(s[1..], p);
      FilterIdempotent(s[1..], p);
      if p(s[0]) {
        assert Filter(s, p) == [s[0]] + rest;
        assert ([s[0]] + rest)[1..] == rest;
      } else {
        assert Filter(s, p) == rest;
      }
    }
  }

  /** Inserts `x` after every element that may stand before it. */
  function Insert<T>(x: T, s: seq<T>, le: (T, T) -> bool): (r: seq<T>)
    ensures multiset(r) == multiset(s) + multiset{x}
  {
    if s == [] || !le(s[0], x) then [x] + s
    else
      assert s == [s[0]] + s[1..];
      [s[0]] + Insert(x, s[1..], le)
  }

  /** `s.sortedWith(le)`: each element in turn inserted into the sorted prefix before it. */
  function Sort<T>(s: seq<T>, le: (T, T) -> bool): (r: seq<T>)
    ensures multiset(r) == multiset(s)
  {
    if s == [] then []
    else
      assert s == s[..|s| - 1] + [s[|s| - 1]];
      Insert(s[|s| - 1], Sort(s[..|s| - 1], le), le)
  }

  lemma {:induction false} InsertSorted<T(!new)>(x: T, s: seq<T>, le: (T, T) -> bool)
    requires TotalPreorder(le) && Sorted(s, le)
    ensures Sorted(Insert(x, s, le), le)
  {
    if s == [] || !le(s[0], x) {
      forall j | 0 <= j < |s|
        ensures le(x, s[j])
      {
        assert le(x, s[0]);
        if j > 0 {
          assert le(s[0], s[j]);
        }
      }
    } else {
      var t := Insert(x, s[1..], le);
      InsertSorted(x, s[1..], le);
      forall j | 0 <= j < |t|
        ensures le(s[0], t[j])
      {
        assert t[j] in multiset(t);
        if t[j] != x {
          assert t[j] in s[1..];
        }
      }
    }
  }

  /** The result of the sort is sorted. */
  lemma {:induction false} SortSorted<T(!new)>(s: seq<T>, le: (T, T) -> bool)
    requires TotalPreorder(le)
    ensures Sorted(Sort(s, le), le)
  {
    if s != [] {
      SortSorted(s[..|s| - 1], le);
      InsertSorted(s[|s| - 1], Sort(s[..|s| - 1], le), le);
    }
  }

  /** The elements that compare equal to `k`, in their order. */
  function Class<T>(s: seq<T>, le: (T, T) -> bool, k: T): seq<T> {
    Filter(s, EquivTo(le, k))
  }

  /** The test "compares equal to `k`". */
  function EquivTo<T>(le: (T, T) -> bool, k: T): T -> bool {
    y => Equiv(le, y, k)
  }

  /** Inserting into a sorted sequence puts `x` last among the elements equal to it. */
  lemma {:induction false} InsertClass<T(!new)>(x: T, s: seq<T>, le: (T, T) -> bool, k: T)
    requires TotalPreorder(le) && Sorted(s, le)
    ensures Class(Insert(x, s, le), le, k) == Class(s, le, k) + (if Equiv(le, x, k) then [x] else [])
  {
    var p := EquivTo(le, k);
    if s == [] || !le(s[0], x) {
      if Equiv(le, x, k) {
        FilterNone(s, p);
      }
      assert ([x] + s)[1..] == s;
    } else {
      InsertClass(x, s[1..], le, k);
      assert ([s[0]] + Insert(x, s[1..], le))[1..] == Insert(x, s[1..], le);
    }
  }

  /**
   * Stability: among elements that compare equal, the sort keeps the input
   * order.
   */
  lemma {:induction false} SortStable<T(!new)>(s: seq<T>, le: (T, T) -> bool, k: T)
    requires TotalPreorder(le)
    ensures Class(Sort(s, le), le, k) == Class(s, le, k)
  {
    if s != [] {
      var init, last := s[..|s| - 1], s[|s| - 1];
      var p := EquivTo(le, k);
      SortStable(init, le, k);
      SortSorted(init, le);
      InsertClass(last, Sort(init, le), le, k);
      assert s == init + [last];
      FilterAppend(init, [last], p);
      assert Filter([last], p) == if p(last) then [last] else [];
    }
  }
}
