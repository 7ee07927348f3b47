/** Stable sorting, as the standard library's `sort.SliceStable` promises it, and what it does to selections. */
module StableSort {

  ghost predicate TotalOrder<T(!new)>(le: (T, T) -> bool) {
    && (forall x, y :: le(x, y) || le(y, x))
    && (forall x, y, z :: le(x, y) && le(y, z) ==> le(x, z))
  }

  /** Behind every element that is not greater. */
  function Insert<T>(x: T, s: seq<T>, le: (T, T) -> bool): seq<T> {
    if s == [] then [x]
    else if le(s[|s| - 1], x) then s + [x]
    else Insert(x, s[..|s| - 1], le) + [s[|s| - 1]]
  }

  function Sort<T>(s: seq<T>, le: (T, T) -> bool): seq<T> {
    if s == [] then [] else Insert(s[|s| - 1], Sort(s[..|s| - 1], le), le)
  }

  ghost predicate Sorted<T(!new)>(s: seq<T>, le: (T, T) -> bool) {
    forall i, k :: 0 <= i < k < |s| ==> le(s[i], s[k])
  }

  function Filter<T>(s: seq<T>, p: T -> bool): seq<T> {
    if s == [] then []
    else
      var rest := Filter(s[..|s| - 1], p);
      if p(s[|s| - 1]) then rest + [s[|s| - 1]] else rest
  }

  lemma SplitLast<T>(s: seq<T>)
    requires s != []
    ensures s == s[..|s| - 1] + [s[|s| - 1]]
  {
  }

  // ---------------------------------------------------------------- sorting permutes

  lemma {:induction false} InsertPermutes<T>(x: T, s: seq<T>, le: (T, T) -> bool)
    ensures multiset(Insert(x, s, le)) == multiset(s) + multiset{x}
    decreases |s|
  {
    if s != [] {
      SplitLast(s);
      if !le(s[|s| - 1], x) { InsertPermutes(x, s[..|s| - 1], le); }
    }
  }

  lemma {:induction false} SortPermutes<T>(s: seq<T>, le: (T, T) -> bool)
    ensures multiset(Sort(s, le)) == multiset(s)
    decreases |s|
  {
    if s != [] {
      SplitLast(s);
      SortPermutes(s[..|s| - 1], le);
      InsertPermutes(s[|s| - 1], Sort(s[..|s| - 1], le), le);
    }
  }

  lemma SortMembers<T>(s: seq<T>, le: (T, T) -> bool)
    ensures |Sort(s, le)| == |s| && forall x :: x in Sort(s, le) <==> x in s
  {
    SortPermutes(s, le);
    SameMembers(Sort(s, le), s);
  }

  lemma SameMembers<T>(a: seq<T>, b: seq<T>)
    requires multiset(a) == multiset(b)
    ensures |a| == |b| && forall x :: x in a <==> x in b
  {
    assert |multiset(a)| == |a| && |multiset(b)| == |b|;
    forall x ensures x in a <==> x in b { assert x in a <==> x in multiset(a); assert x in b <==> x in multiset(b); }
  }

  // ---------------------------------------------------------------- sorting sorts

  lemma {:induction false} InsertSorts<T(!new)>(x: T, s: seq<T>, le: (T, T) -> bool)
    requires TotalOrder(le) && Sorted(s, le)
    ensures Sorted(Insert(x, s, le), le)
    decreases |s|
  {
    if s != [] && !le(s[|s| - 1], x) {
      var front, last := s[..|s| - 1], s[|s| - 1];
      InsertSorts(x, front, le);
      InsertPermutes(x, front, le);
      forall y | y in Insert(x, front, le) ensures le(y, last) {
        assert y in multiset(front) + multiset{x};
        assert y in front || y == x;
      }
    }
  }

  lemma {:induction false} SortSorts<T(!new)>(s: seq<T>, le: (T, T) -> bool)
    requires TotalOrder(le)
    ensures Sorted(Sort(s, le), le)
    decreases |s|
  {
    if s != [] {
      SortSorts(s[..|s| - 1], le);
      InsertSorts(s[|s| - 1], Sort(s[..|s| - 1], le), le);
    }
  }

  /** Where the order tells all elements apart, there is only one sorted arrangement. */
  lemma {:induction false} SortedIsUnique<T(!new)>(a: seq<T>, b: seq<T>, le: (T, T) -> bool)
    requires Sorted(a, le) && Sorted(b, le) && multiset(a) == multiset(b)
    requires forall x, y :: x in a && y in a && le(x, y) && le(y, x) ==> x == y
    ensures a == b
    decreases |a|
  {
    SameMembers(a, b);
    if a != [] {
      var n := |a| - 1;
      var x, y := a[n], b[n];
      assert x in b && y in a;
      LastIsGreatest(a, y, le);
      LastIsGreatest(b, x, le);
      assert x == y;
      DropLast(a);
      DropLast(b);
      SortedIsUnique(a[..n], b[..n], le);
      SplitLast(a);
      SplitLast(b);
    }
  }

  lemma DropLast<T>(a: seq<T>)
    requires a != []
    ensures multiset(a[..|a| - 1]) == multiset(a) - multiset{a[|a| - 1]}
    ensures forall x :: x in a[..|a| - 1] ==> x in a
  {
    SplitLast(a);
  }

  lemma LastIsGreatest<T(!new)>(a: seq<T>, y: T, le: (T, T) -> bool)
    requires Sorted(a, le) && y in a
    ensures y == a[|a| - 1] || le(y, a[|a| - 1])
  {
    var i :| 0 <= i < |a| && a[i] == y;
  }

  // ---------------------------------------------------------------- selecting and sorting commute

  lemma {:induction false} FilterMembers<T>(s: seq<T>, p: T -> bool)
    ensures forall x :: x in Filter(s, p) <==> x in s && p(x)
    ensures |Filter(s, p)| <= |s|
    decreases |s|
  {
    if s != [] {
      FilterMembers(s[..|s| - 1], p);
      SplitLast(s);
    }
  }

  lemma FilterAppend<T>(s: seq<T>, x: T, p: T -> bool)
    ensures Filter(s + [x], p) == if p(x) then Filter(s, p) + [x] else Filter(s, p)
  {
    assert (s + [x])[..|s|] == s;
  }

  lemma {:induction false} FilterFront<T>(s: seq<T>, p: T -> bool)
    requires s != []
    ensures Filter(s, p) == (if p(s[0]) then [s[0]] else []) + Filter(s[1..], p)
    decreases |s|
  {
    var n := |s| - 1;
    if n == 0 {
      assert s[..0] == [] && s[1..] == [];
    } else {
      FilterFront(s[..n], p);
      assert s[..n][1..] == s[1..][..n - 1];
    }
  }

  lemma {:induction false} FilterNone<T>(s: seq<T>, p: T -> bool)
    requires forall i :: 0 <= i < |s| ==> !p(s[i])
    ensures Filter(s, p) == []
    decreases |s|
  {
    if s != [] { FilterNone(s[..|s| - 1], p); }
  }

  lemma {:induction false} FilterConcat<T>(a: seq<T>, b: seq<T>, p: T -> bool)
    ensures Filter(a + b, p) == Filter(a, p) + Filter(b, p)
    decreases |b|
  {
    if b == [] {
      assert a + b == a;
    } else {
      var n := |b| - 1;
      FilterConcat(a, b[..n], p);
      assert (a + b)[..|a + b| - 1] == a + b[..n];
    }
  }

  /** Inserting into a sorted list and inserting into its selection agree. */
  lemma {:induction false} FilterInsert<T(!new)>(x: T, s: seq<T>, le: (T, T) -> bool, p: T -> bool)
    requires TotalOrder(le) && Sorted(s, le)
    ensures Filter(Insert(x, s, le), p) == if p(x) then Insert(x, Filter(s, p), le) else Filter(s, p)
    decreases |s|
  {
    if s != [] {
      var front, last := s[..|s| - 1], s[|s| - 1];
      if le(last, x) {
        FilterAppend(s, x, p);
        if Filter(s, p) != [] {
          var y := Filter(s, p)[|Filter(s, p)| - 1];
          FilterMembers(s, p);
          LastIsGreatest(s, y, le);
          assert le(y, x);
        }
      } else {
        FilterInsert(x, front, le, p);
        FilterAppend(Insert(x, front, le), last, p);
        assert (Filter(front, p) + [last])[..|Filter(front, p)|] == Filter(front, p);
      }
    }
  }

  /** Stability: selecting after a stable sort is sorting the selection. */
  lemma {:induction false} FilterSort<T(!new)>(s: seq<T>, le: (T, T) -> bool, p: T -> bool)
    requires TotalOrder(le)
    ensures Filter(Sort(s, le), p) == Sort(Filter(s, p), le)
    decreases |s|
  {
    if s != [] {
      var front, last := s[..|s| - 1], s[|s| - 1];
      FilterSort(front, le, p);
      SortSorts(front, le);
      FilterInsert(last, Sort(front, le), le, p);
      if p(last) { assert (Filter(front, p) + [last])[..|Filter(front, p)|] == Filter(front, p); }
    }
  }

  /** Two orders that agree on a list sort it alike. */
  lemma {:induction false} SortAgrees<T(!new)>(s: seq<T>, le: (T, T) -> bool, le': (T, T) -> bool)
    requires forall x, y :: x in s && y in s ==> le(x, y) == le'(x, y)
    ensures Sort(s, le) == Sort(s, le')
    decreases |s|
  {
    if s != [] {
      var front, last := s[..|s| - 1], s[|s| - 1];
      SortAgrees(front, le, le');
      SortMembers(front, le);
      InsertAgrees(last, Sort(front, le), le, le');
    }
  }

  lemma {:induction false} InsertAgrees<T(!new)>(x: T, s: seq<T>, le: (T, T) -> bool, le': (T, T) -> bool)
    requires forall y :: y in s ==> le(y, x) == le'(y, x)
    ensures Insert(x, s, le) == Insert(x, s, le')
    decreases |s|
  {
    if s != [] && !le(s[|s| - 1], x) { InsertAgrees(x, s[..|s| - 1], le, le'); }
  }
}
