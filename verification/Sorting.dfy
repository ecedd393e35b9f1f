/** Go's sort.SliceStable, for any strict weak order. */
module Sorting {

  ghost predicate StrictWeakOrder<T(!new)>(less: (T, T) -> bool) {
    && (forall x :: !less(x, x))
    && (forall x, y, z :: less(x, y) && less(y, z) ==> less(x, z))
    && (forall x, y, z :: !less(x, y) && !less(y, z) ==> !less(x, z))
  }

  ghost predicate Sorted<T>(less: (T, T) -> bool, s: seq<T>) {
    forall i, j :: 0 <= i < j < |s| ==> !less(s[j], s[i])
  }

  /** Puts `x` behind everything that it is not less than. */
  function Insert<T>(less: (T, T) -> bool, s: seq<T>, x: T): seq<T> {
    if s != [] && less(x, s[|s| - 1]) then Insert(less, s[..|s| - 1], x) + [s[|s| - 1]] else s + [x]
  }

  function StableSort<T>(less: (T, T) -> bool, s: seq<T>): seq<T> {
    if s == [] then [] else Insert(less, StableSort(less, s[..|s| - 1]), s[|s| - 1])
  }

  function Filter<T>(p: T -> bool, s: seq<T>): seq<T> {
    if s == [] then []
    else Filter(p, s[..|s| - 1]) + if p(s[|s| - 1]) then [s[|s| - 1]] else []
  }

  lemma FilterOneMore<T>(p: T -> bool, s: seq<T>, x: T)
    ensures Filter(p, s + [x]) == Filter(p, s) + if p(x) then [x] else []
  {
    assert (s + [x])[..|s|] == s;
  }

  lemma FilterNext<T>(p: T -> bool, s: seq<T>, i: nat)
    requires i < |s|
    ensures Filter(p, s[..i + 1]) == if p(s[i]) then Filter(p, s[..i]) + [s[i]] else Filter(p, s[..i])
  {
    assert s[..i + 1][..i] == s[..i];
    assert Filter(p, s[..i]) + [] == Filter(p, s[..i]);
  }

  lemma FilterOfAll<T>(p: T -> bool, s: seq<T>)
    ensures Filter(p, s[..0]) == [] && Filter(p, s[..|s|]) == Filter(p, s)
  {
    assert s[..|s|] == s;
  }

  /** Filtering keeps what has the property as often as it was there, and nothing else. */
  lemma {:induction false} FilterCounts<T>(p: T -> bool, s: seq<T>, x: T)
    ensures multiset(Filter(p, s))[x] == if p(x) then multiset(s)[x] else 0
  {
    if s != [] {
      var n := |s| - 1;
      FilterCounts(p, s[..n], x);
      assert multiset(s) == multiset(s[..n]) + multiset{s[n]} by {
        assert s == s[..n] + [s[n]];
      }
      var rest := Filter(p, s[..n]);
      assert Filter(p, s) == rest + if p(s[n]) then [s[n]] else [];
      hide Filter;
    }
  }

  lemma {:induction false} InsertPermutes<T>(less: (T, T) -> bool, s: seq<T>, x: T)
    ensures multiset(Insert(less, s, x)) == multiset(s) + multiset{x}
  {
    if s != [] && less(x, s[|s| - 1]) {
      var n := |s| - 1;
      var front := Insert(less, s[..n], x);
      assert Insert(less, s, x) == front + [s[n]];
      InsertPermutes(less, s[..n], x);
      assert multiset(s) == multiset(s[..n]) + multiset{s[n]} by {
        assert s == s[..n] + [s[n]];
      }
      hide Insert;
    }
  }

  ghost predicate NotBefore<T(!new)>(less: (T, T) -> bool, s: seq<T>, x: T) {
    forall y :: y in s ==> !less(x, y)
  }

  lemma SortedOneMore<T(!new)>(less: (T, T) -> bool, s: seq<T>, x: T)
    requires Sorted(less, s) && NotBefore(less, s, x)
    ensures Sorted(less, s + [x])
  {
  }

  lemma SortedFront<T(!new)>(less: (T, T) -> bool, s: seq<T>)
    requires Sorted(less, s) && s != []
    ensures Sorted(less, s[..|s| - 1]) && NotBefore(less, s[..|s| - 1], s[|s| - 1])
  {
  }

  lemma InsertMembers<T>(less: (T, T) -> bool, s: seq<T>, x: T)
    ensures forall y :: y in Insert(less, s, x) <==> y in s || y == x
  {
    InsertPermutes(less, s, x);
    forall y ensures y in Insert(less, s, x) <==> y in s || y == x {
      assert y in Insert(less, s, x) <==> y in multiset(Insert(less, s, x));
      assert y in s <==> y in multiset(s);
    }
  }

  lemma {:induction false} InsertSorts<T(!new)>(less: (T, T) -> bool, s: seq<T>, x: T)
    requires StrictWeakOrder(less) && Sorted(less, s)
    ensures Sorted(less, Insert(less, s, x))
  {
    hide Sorted;
    if s != [] {
      var n, last := |s| - 1, s[|s| - 1];
      SortedFront(less, s);
      if less(x, last) {
        InsertSorts(less, s[..n], x);
        InsertMembers(less, s[..n], x);
        SortedOneMore(less, Insert(less, s[..n], x), last);
      } else {
        assert s == s[..n] + [last];
        SortedOneMore(less, s, x);
      }
    } else {
      SortedOneMore(less, s, x);
    }
  }

  lemma {:induction false} StableSortPermutes<T>(less: (T, T) -> bool, s: seq<T>)
    ensures multiset(StableSort(less, s)) == multiset(s)
  {
    if s != [] {
      var n := |s| - 1;
      var front := StableSort(less, s[..n]);
      assert StableSort(less, s) == Insert(less, front, s[n]);
      assert multiset(s) == multiset(s[..n]) + multiset{s[n]} by {
        assert s == s[..n] + [s[n]];
      }
      hide StableSort, Insert;
      StableSortPermutes(less, s[..n]);
      InsertPermutes(less, front, s[n]);
    }
  }

  /** The result is sorted, and holds the same elements as often. */
  lemma {:induction false} StableSortSorts<T(!new)>(less: (T, T) -> bool, s: seq<T>)
    requires StrictWeakOrder(less)
    ensures Sorted(less, StableSort(less, s)) && multiset(StableSort(less, s)) == multiset(s)
  {
    StableSortPermutes(less, s);
    NothingIsSorted(less);
    hide StrictWeakOrder, Sorted, Insert;
    if s != [] {
      StableSortSorts(less, s[..|s| - 1]);
      InsertSorts(less, StableSort(less, s[..|s| - 1]), s[|s| - 1]);
    }
  }

  lemma NothingIsSorted<T>(less: (T, T) -> bool)
    ensures Sorted(less, [])
  {
  }

  /** What is sorted already stays as it is. */
  lemma {:induction false} SortedStays<T(!new)>(less: (T, T) -> bool, s: seq<T>)
    requires Sorted(less, s)
    ensures StableSort(less, s) == s
  {
    if s != [] {
      var n := |s| - 1;
      SortedStays(less, s[..n]);
      assert n > 0 ==> !less(s[n], s[n - 1]);
    }
  }

  lemma {:induction false} InsertKeepsOrder<T>(less: (T, T) -> bool, p: T -> bool, s: seq<T>, x: T)
    requires forall y :: y in s && p(x) && p(y) ==> !less(x, y)
    ensures Filter(p, Insert(less, s, x)) == Filter(p, s) + if p(x) then [x] else []
  {
    if s != [] && less(x, s[|s| - 1]) {
      var n, last := |s| - 1, s[|s| - 1];
      assert s == s[..n] + [last] && last in s;
      InsertKeepsOrder(less, p, s[..n], x);
      var front := Insert(less, s[..n], x);
      assert Insert(less, s, x) == front + [last];
      hide Filter, Insert;
      FilterOneMore(p, front, last);
      FilterOneMore(p, s[..n], last);
      InOrder(Filter(p, s[..n]), p(x), x, p(last), last);
    } else {
      FilterOneMore(p, s, x);
    }
  }

  lemma InOrder<T>(s: seq<T>, px: bool, x: T, pLast: bool, last: T)
    requires !(px && pLast)
    ensures s + (if px then [x] else []) + (if pLast then [last] else [])
         == s + (if pLast then [last] else []) + (if px then [x] else [])
  {
    assert s + [] == s;
  }

  /** The sort is stable: elements of which none is less than another stay in their order. */
  lemma {:induction false} StableSortKeepsOrder<T(!new)>(less: (T, T) -> bool, p: T -> bool, s: seq<T>)
    requires forall x, y :: p(x) && p(y) ==> !less(x, y)
    ensures Filter(p, StableSort(less, s)) == Filter(p, s)
  {
    if s != [] {
      var n := |s| - 1;
      StableSortKeepsOrder(less, p, s[..n]);
      InsertKeepsOrder(less, p, StableSort(less, s[..n]), s[n]);
    }
  }

  /** What is neither before nor after `x`. */
  function Alike<T>(less: (T, T) -> bool, x: T): T -> bool {
    (y: T) => !less(x, y) && !less(y, x)
  }

  lemma {:induction false} FilterHas<T(!new)>(p: T -> bool, s: seq<T>, x: T)
    ensures x in Filter(p, s) <==> x in s && p(x)
  {
    if s != [] {
      FilterHas(p, s[..|s| - 1], x);
      assert s == s[..|s| - 1] + [s[|s| - 1]];
    }
  }

  /** A sorted list is determined by the order of the elements that are alike. */
  lemma {:induction false} SortedIsDetermined<T(!new)>(less: (T, T) -> bool, u: seq<T>, v: seq<T>)
    requires StrictWeakOrder(less) && Sorted(less, u) && Sorted(less, v)
    requires forall x :: Filter(Alike(less, x), u) == Filter(Alike(less, x), v)
    ensures u == v
    decreases |u|
  {
    if u == [] || v == [] {
      NothingAlikeNothing(less, u, v);
    } else {
      var m, n := |u| - 1, |v| - 1;
      LastIsDetermined(less, u, v);
      SortedFront(less, u);
      SortedFront(less, v);
      hide StrictWeakOrder, Sorted, Filter, Alike;
      forall x ensures Filter(Alike(less, x), u[..m]) == Filter(Alike(less, x), v[..n]) {
        FilterFront(Alike(less, x), u);
        FilterFront(Alike(less, x), v);
        assert Filter(Alike(less, x), u) == Filter(Alike(less, x), v);
      }
      SortedIsDetermined(less, u[..m], v[..n]);
      assert u == u[..m] + [u[m]] && v == v[..n] + [v[n]];
    }
  }

  lemma NothingAlikeNothing<T(!new)>(less: (T, T) -> bool, u: seq<T>, v: seq<T>)
    requires StrictWeakOrder(less) && (u == [] || v == [])
    requires forall x :: Filter(Alike(less, x), u) == Filter(Alike(less, x), v)
    ensures u == v
  {
    hide Filter;
    if u != [] {
      FilterHas(Alike(less, u[0]), u, u[0]);
      FilterHas(Alike(less, u[0]), v, u[0]);
    }
    if v != [] {
      FilterHas(Alike(less, v[0]), v, v[0]);
      FilterHas(Alike(less, v[0]), u, v[0]);
    }
  }

  lemma FilterFront<T>(p: T -> bool, s: seq<T>)
    requires s != []
    ensures var all, last := Filter(p, s), s[|s| - 1];
      Filter(p, s[..|s| - 1]) == if p(last) then all[..|all| - 1] else all
    ensures p(s[|s| - 1]) ==> Filter(p, s) != [] && Filter(p, s)[|Filter(p, s)| - 1] == s[|s| - 1]
  {
  }

  lemma NothingAfterLast<T>(less: (T, T) -> bool, s: seq<T>, x: T)
    requires Sorted(less, s) && x in s && !less(x, x)
    ensures !less(s[|s| - 1], x)
  {
    var i :| 0 <= i < |s| && s[i] == x;
  }

  lemma LastIsDetermined<T(!new)>(less: (T, T) -> bool, u: seq<T>, v: seq<T>)
    requires StrictWeakOrder(less) && Sorted(less, u) && Sorted(less, v) && u != [] && v != []
    requires forall x :: Filter(Alike(less, x), u) == Filter(Alike(less, x), v)
    ensures u[|u| - 1] == v[|v| - 1]
  {
    var x, y := u[|u| - 1], v[|v| - 1];
    FilterHas(Alike(less, x), u, x);
    FilterHas(Alike(less, x), v, x);
    FilterHas(Alike(less, y), u, y);
    FilterHas(Alike(less, y), v, y);
    assert Filter(Alike(less, x), u) == Filter(Alike(less, x), v);
    assert Filter(Alike(less, y), u) == Filter(Alike(less, y), v);
    NothingAfterLast(less, v, x);
    NothingAfterLast(less, u, y);
    FilterFront(Alike(less, x), u);
    FilterFront(Alike(less, x), v);
  }

  /** Two lists that hold what is alike in the same order are sorted into the same list. */
  lemma StableSortIsDetermined<T(!new)>(less: (T, T) -> bool, a: seq<T>, b: seq<T>)
    requires StrictWeakOrder(less)
    requires forall x :: Filter(Alike(less, x), a) == Filter(Alike(less, x), b)
    ensures StableSort(less, a) == StableSort(less, b)
  {
    StableSortSorts(less, a);
    StableSortSorts(less, b);
    var u, v := StableSort(less, a), StableSort(less, b);
    forall x ensures Filter(Alike(less, x), u) == Filter(Alike(less, x), v) {
      AlikeEachOther(less, x);
      StableSortKeepsOrder(less, Alike(less, x), a);
      StableSortKeepsOrder(less, Alike(less, x), b);
    }
    hide StableSort, Filter;
    SortedIsDetermined(less, u, v);
  }

  lemma AlikeEachOther<T(!new)>(less: (T, T) -> bool, x: T)
    requires StrictWeakOrder(less)
    ensures forall y, z :: Alike(less, x)(y) && Alike(less, x)(z) ==> !less(y, z)
  {
  }
}
