/** The stable insertion sort that stands in for `Array.prototype.sort`
    with a comparator, and its correctness: the output is ordered and is a
    permutation of the input. */
module Sorting {

  /** `le` is a total preorder: every two elements compare, transitively. */
  ghost predicate TotalPreorder<T(!new)>(le: (T, T) -> bool) {
    && (forall a, b :: le(a, b) || le(b, a))
    && (forall a, b, c :: le(a, b) && le(b, c) ==> le(a, c))
  }

  ghost predicate Sorted<T>(s: seq<T>, le: (T, T) -> bool) {
    forall i, j :: 0 <= i < j < |s| ==> le(s[i], s[j])
  }

  /** Places `x` before the first element it is `le` to; elements equal to
      `x` that follow it in the input therefore stay behind it. */
  function Insert<T>(x: T, s: seq<T>, le: (T, T) -> bool): (r: seq<T>)
    ensures |r| == |s| + 1
  {
    if s == [] then [x]
    else if le(x, s[0]) then [x] + s
    else [s[0]] + Insert(x, s[1..], le)
  }

  function Sort<T>(s: seq<T>, le: (T, T) -> bool): (r: seq<T>)
    ensures |r| == |s|
  {
    if s == [] then [] else Insert(s[0], Sort(s[1..], le), le)
  }

  lemma {:induction false} InsertPermutes<T>(x: T, s: seq<T>, le: (T, T) -> bool)
    ensures multiset(Insert(x, s, le)) == multiset(s) + multiset{x}
  {
    if s != [] && !le(x, s[0]) {
      InsertPermutes(x, s[1..], le);
      assert s == [s[0]] + s[1..];
    }
  }

  lemma {:induction false} InsertSorted<T(!new)>(x: T, s: seq<T>, le: (T, T) -> bool)
    requires TotalPreorder(le)
    requires Sorted(s, le)
    ensures Sorted(Insert(x, s, le), le)
  {
    if s != [] && !le(x, s[0]) {
      InsertSorted(x, s[1..], le);
      var t := Insert(x, s[1..], le);
      InsertPermutes(x, s[1..], le);
      forall k | 0 <= k < |t| ensures le(s[0], t[k]) {
        assert t[k] in multiset(t);
        assert t[k] in multiset(s[1..]) + multiset{x};
        if t[k] != x || t[k] in multiset(s[1..]) {
          if t[k] in multiset(s[1..]) {
            var m :| 0 <= m < |s[1..]| && s[1..][m] == t[k];
            assert s[m + 1] == t[k];
          }
        }
      }
    }
  }

  lemma {:induction false} SortPermutes<T>(s: seq<T>, le: (T, T) -> bool)
    ensures multiset(Sort(s, le)) == multiset(s)
  {
    if s != [] {
      SortPermutes(s[1..], le);
      InsertPermutes(s[0], Sort(s[1..], le), le);
      assert s == [s[0]] + s[1..];
    }
  }

  lemma {:induction false} SortSorted<T(!new)>(s: seq<T>, le: (T, T) -> bool)
    requires TotalPreorder(le)
    ensures Sorted(Sort(s, le), le)
  {
    if s != [] {
      SortSorted(s[1..], le);
      InsertSorted(s[0], Sort(s[1..], le), le);
    }
  }

  /** Sorting keeps the input's length and its set of elements. */
  lemma SortKeepsElements<T>(s: seq<T>, le: (T, T) -> bool)
    ensures |Sort(s, le)| == |s|
    ensures forall x :: x in Sort(s, le) <==> x in s
  {
    SortPermutes(s, le);
    assert |multiset(Sort(s, le))| == |multiset(s)|;
    forall x ensures x in Sort(s, le) <==> x in s {
      assert x in Sort(s, le) <==> x in multiset(Sort(s, le));
      assert x in s <==> x in multiset(s);
    }
  }

  /** Two elements that are `le` to each other are the same element. */
  ghost predicate Antisymmetric<T(!new)>(le: (T, T) -> bool) {
    forall a, b :: le(a, b) && le(b, a) ==> a == b
  }

  /** Under an antisymmetric order, a permutation has only one sorted
      arrangement. */
  lemma {:induction false} SortedUnique<T(!new)>(s: seq<T>, t: seq<T>, le: (T, T) -> bool)
    requires Antisymmetric(le)
    requires Sorted(s, le) && Sorted(t, le) && multiset(s) == multiset(t)
    ensures s == t
    decreases |s|
  {
    assert |s| == |multiset(s)| == |multiset(t)| == |t|;
    if s != [] {
      HeadsAgree(s, t, le);
      var s', t' := s[1..], t[1..];
      assert s == [s[0]] + s' && t == [t[0]] + t';
      assert multiset(s') == multiset(s) - multiset{s[0]};
      assert multiset(t') == multiset(t) - multiset{t[0]};
      SortedTail(s, le);
      SortedTail(t, le);
      SortedUnique(s', t', le);
    }
  }

  lemma SortedTail<T>(s: seq<T>, le: (T, T) -> bool)
    requires Sorted(s, le) && s != []
    ensures Sorted(s[1..], le)
  {
    forall i, j | 0 <= i < j < |s| - 1 ensures le(s[1..][i], s[1..][j]) {
      assert s[1..][i] == s[i + 1] && s[1..][j] == s[j + 1];
    }
  }

  /** Two sorted permutations start with the same element. */
  lemma HeadsAgree<T(!new)>(s: seq<T>, t: seq<T>, le: (T, T) -> bool)
    requires Antisymmetric(le)
    requires Sorted(s, le) && Sorted(t, le) && multiset(s) == multiset(t) && s != [] && t != []
    ensures s[0] == t[0]
  {
    assert s[0] in multiset(t) && t[0] in multiset(s);
    var i :| 0 <= i < |s| && s[i] == t[0];
    var j :| 0 <= j < |t| && t[j] == s[0];
    assert i == 0 || le(s[0], s[i]);
    assert j == 0 || le(t[0], t[j]);
  }

  /** Sorting the same elements in any input order gives the same list. */
  lemma SortIgnoresOrder<T(!new)>(s: seq<T>, t: seq<T>, le: (T, T) -> bool)
    requires TotalPreorder(le) && Antisymmetric(le) && multiset(s) == multiset(t)
    ensures Sort(s, le) == Sort(t, le)
  {
    SortSorted(s, le);
    SortSorted(t, le);
    SortPermutes(s, le);
    SortPermutes(t, le);
    SortedUnique(Sort(s, le), Sort(t, le), le);
  }

  ghost predicate Distinct<T>(s: seq<T>) {
    forall i, j :: 0 <= i < j < |s| ==> s[i] != s[j]
  }

  lemma {:induction false} InsertKeepsDistinct<T>(x: T, s: seq<T>, le: (T, T) -> bool)
    requires Distinct(s) && x !in s
    ensures Distinct(Insert(x, s, le))
  {
    if s != [] && !le(x, s[0]) {
      InsertKeepsDistinct(x, s[1..], le);
      InsertPermutes(x, s[1..], le);
      var t := Insert(x, s[1..], le);
      forall k | 0 <= k < |t| ensures t[k] != s[0] {
        assert t[k] in multiset(s[1..]) + multiset{x};
        assert s[0] !in s[1..];
      }
    }
  }

  /** Sorting a list without repetitions gives one without repetitions. */
  lemma {:induction false} SortKeepsDistinct<T>(s: seq<T>, le: (T, T) -> bool)
    requires Distinct(s)
    ensures Distinct(Sort(s, le))
  {
    if s != [] {
      SortKeepsDistinct(s[1..], le);
      SortKeepsElements(s[1..], le);
      InsertKeepsDistinct(s[0], Sort(s[1..], le), le);
    }
  }

  /** `s.reverse()`. */
  function Reverse<T>(s: seq<T>): (r: seq<T>)
    ensures |r| == |s|
    ensures forall i :: 0 <= i < |s| ==> r[i] == s[|s| - 1 - i]
  {
    if s == [] then [] else Reverse(s[1..]) + [s[0]]
  }

  /** The first `k` elements of a reversed sorted list without repetitions:
      they descend, they repeat nothing, and every element left out is `le`
      to every element kept. */
  lemma TopOfReversed<T>(sorted: seq<T>, le: (T, T) -> bool, k: nat)
    requires Sorted(sorted, le) && Distinct(sorted) && k <= |sorted|
    ensures forall i, j :: 0 <= i < j < k ==>
      le(Reverse(sorted)[j], Reverse(sorted)[i]) && Reverse(sorted)[j] != Reverse(sorted)[i]
    ensures forall p, q :: p in sorted && p !in Reverse(sorted)[..k] && q in Reverse(sorted)[..k] ==> le(p, q)
  {
    var r := Reverse(sorted);
    forall i, j | 0 <= i < j < k ensures le(r[j], r[i]) && r[j] != r[i] {
      IndexOfReversed(sorted, i);
      IndexOfReversed(sorted, j);
    }
    forall p, q | p in sorted && p !in r[..k] && q in r[..k] ensures le(p, q) {
      LeftOutBelow(sorted, le, k, p, q);
    }
  }

  lemma IndexOfReversed<T>(s: seq<T>, i: nat)
    requires i < |s|
    ensures Reverse(s)[i] == s[|s| - 1 - i]
  {
  }

  lemma LeftOutBelow<T>(sorted: seq<T>, le: (T, T) -> bool, k: nat, p: T, q: T)
    requires Sorted(sorted, le) && k <= |sorted|
    requires p in sorted && p !in Reverse(sorted)[..k] && q in Reverse(sorted)[..k]
    ensures le(p, q)
  {
    var r := Reverse(sorted);
    var n := |sorted|;
    var a :| 0 <= a < n && sorted[a] == p;
    var i :| 0 <= i < k && r[..k][i] == q;
    IndexOfReversed(sorted, i);
    var b := n - 1 - i;
    assert q == sorted[b];
    if a == b {
      assert false;
    } else if a > b {
      IndexOfReversed(sorted, n - 1 - a);
      assert false;
    }
    assert le(sorted[a], sorted[b]);
  }
}
