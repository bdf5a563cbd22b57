/** The stable comparison sort of ECMAScript's Array.prototype.sort. */
module Sorting {

  ghost predicate TotalPreorder<T(!new)>(le: (T, T) -> bool) {
    && (forall x, y :: le(x, y) || le(y, x))
    && (forall x, y, z :: le(x, y) && le(y, z) ==> le(x, z))
  }

  ghost predicate SortedBy<T>(le: (T, T) -> bool, s: seq<T>) {
    forall i, j :: 0 <= i < j < |s| ==> le(s[i], s[j])
  }

  /** Inserts x behind every element of s that may stand before it. */
  function Insert<T>(le: (T, T) -> bool, s: seq<T>, x: T): (r: seq<T>)
    ensures multiset(r) == multiset(s) + multiset{x}
    ensures |r| == |s| + 1
  {
    if s == [] then [x]
    else
      var last := s[|s| - 1];
      assert s == s[..|s| - 1] + [last];
      if le(last, x) then s + [x]
      else Insert(le, s[..|s| - 1], x) + [last]
  }

  function StableSort<T>(le: (T, T) -> bool, s: seq<T>): (r: seq<T>)
    ensures multiset(r) == multiset(s)
    ensures |r| == |s|
  {
    if s == [] then []
    else
      assert s == s[..|s| - 1] + [s[|s| - 1]];
      Insert(le, StableSort(le, s[..|s| - 1]), s[|s| - 1])
  }

  lemma {:induction false} InsertSorts<T(!new)>(le: (T, T) -> bool, s: seq<T>, x: T)
    requires TotalPreorder(le) && SortedBy(le, s)
    ensures SortedBy(le, Insert(le, s, x))
  {
    if s != [] {
      var front, last := s[..|s| - 1], s[|s| - 1];
      if le(last, x) {
        var r := s + [x];
        forall i, j | 0 <= i < j < |r| ensures le(r[i], r[j]) {
          if j == |s| && i < |s| - 1 { assert le(s[i], last); }
        }
      } else {
        InsertSorts(le, front, x);
        var inner := Insert(le, front, x);
        var r := inner + [last];
        forall i, j | 0 <= i < j < |r| ensures le(r[i], r[j]) {
          if j == |inner| {
            assert inner[i] in multiset(inner);
            if inner[i] != x {
              assert inner[i] in multiset(front);
              assert inner[i] in front;
              var k :| 0 <= k < |front| && front[k] == inner[i];
              assert le(s[k], s[|s| - 1]);
            }
          }
        }
      }
    }
  }

  lemma {:induction false} StableSortSorts<T(!new)>(le: (T, T) -> bool, s: seq<T>)
    requires TotalPreorder(le)
    ensures SortedBy(le, StableSort(le, s))
  {
    if s != [] {
      StableSortSorts(le, s[..|s| - 1]);
      InsertSorts(le, StableSort(le, s[..|s| - 1]), s[|s| - 1]);
    }
  }

  lemma SameSortSameElements<T>(le: (T, T) -> bool, a: seq<T>, b: seq<T>)
    requires StableSort(le, a) == StableSort(le, b)
    ensures multiset(a) == multiset(b) && |a| == |b|
  {
    assert multiset(StableSort(le, a)) == multiset(a);
  }

  /** Sorting what is already in order moves nothing. */
  lemma {:induction false} StableSortOfSorted<T>(le: (T, T) -> bool, s: seq<T>)
    requires SortedBy(le, s)
    ensures StableSort(le, s) == s
  {
    if s != [] {
      var front := s[..|s| - 1];
      StableSortOfSorted(le, front);
      assert s == front + [s[|s| - 1]];
      if front != [] { assert le(s[|s| - 2], s[|s| - 1]); }
    }
  }

  /** The last element of a sorted arrangement is above every element. */
  lemma LastIsGreatest<T(!new)>(le: (T, T) -> bool, s: seq<T>, x: T)
    requires TotalPreorder(le) && SortedBy(le, s) && x in s
    ensures le(x, s[|s| - 1])
  {
    var i :| 0 <= i < |s| && s[i] == x;
    assert le(x, x);
  }

  /** Two sorted arrangements of the same elements agree when equivalent elements are equal. */
  lemma {:induction false} SortedIsUnique<T(!new)>(le: (T, T) -> bool, a: seq<T>, b: seq<T>)
    requires TotalPreorder(le)
    requires SortedBy(le, a) && SortedBy(le, b) && multiset(a) == multiset(b)
    requires forall x, y :: x in a && y in a && le(x, y) && le(y, x) ==> x == y
    ensures a == b
  {
    assert |a| == |multiset(a)| == |multiset(b)| == |b|;
    if a != [] {
      var n := |a| - 1;
      var x, y := a[n], b[n];
      assert x in b && y in a by { assert x in multiset(b) && y in multiset(a); }
      LastIsGreatest(le, a, y);
      LastIsGreatest(le, b, x);
      assert x == y;
      DropLast(a, b);
      SortedIsUnique(le, a[..n], b[..n]);
    }
  }

  lemma DropLast<T>(a: seq<T>, b: seq<T>)
    requires |a| == |b| > 0 && a[|a| - 1] == b[|b| - 1] && multiset(a) == multiset(b)
    ensures multiset(a[..|a| - 1]) == multiset(b[..|b| - 1])
    ensures a == a[..|a| - 1] + [a[|a| - 1]] && b == b[..|b| - 1] + [b[|b| - 1]]
  {
    var n := |a| - 1;
    assert a == a[..n] + [a[n]] && b == b[..n] + [b[n]];
    assert multiset(a) == multiset(a[..n]) + multiset{a[n]};
    assert multiset(b) == multiset(b[..n]) + multiset{b[n]};
    assert multiset(a[..n]) == multiset(a) - multiset{a[n]};
  }
}
