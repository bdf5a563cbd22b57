/** Option and Result, and sums over the rows of a table. */
module Basics {

  datatype Option<+T> = None | Some(value: T)

  datatype Result<+T, +E> = Ok(value: T) | Err(error: E)

  function Min(a: int, b: int): int { if a < b then a else b }

  function Max(a: int, b: int): int { if a < b then b else a }

  function Pow2(e: nat): nat { if e == 0 then 1 else 2 * Pow2(e - 1) }

  lemma {:induction false} Pow2Grows(a: nat, b: nat)
    requires a <= b
    ensures 1 <= Pow2(a) <= Pow2(b)
  {
    if a < b { Pow2Grows(a, b - 1); } else if a > 0 { Pow2Grows(a - 1, a - 1); }
  }

  /** A doubling delay that starts at the base and stops growing at the cap. */
  function Backoff(attempt: int, exponentCap: nat, baseMs: nat, maxMs: nat): int {
    Min(maxMs, baseMs * Pow2(Max(0, Min(attempt - 1, exponentCap))))
  }

  lemma Scaled(base: nat, x: nat, y: nat)
    requires x <= y
    ensures base * x <= base * y
  {}

  /** Such a delay never shrinks with the attempt and stays between base and cap. */
  lemma BackoffIsBounded(attempt: int, later: int, exponentCap: nat, baseMs: nat, maxMs: nat)
    requires attempt <= later && baseMs <= maxMs
    ensures baseMs <= Backoff(attempt, exponentCap, baseMs, maxMs) <= Backoff(later, exponentCap, baseMs, maxMs) <= maxMs
  {
    var e, f := Max(0, Min(attempt - 1, exponentCap)), Max(0, Min(later - 1, exponentCap));
    Pow2Grows(e, f);
    Scaled(baseMs, 1, Pow2(e));
    Scaled(baseMs, Pow2(e), Pow2(f));
  }

  /** It starts at the base and doubles with every attempt up to the cap, of the delay or of the exponent. */
  lemma BackoffDoubles(attempt: nat, exponentCap: nat, baseMs: nat, maxMs: nat)
    requires 1 <= attempt <= exponentCap && baseMs <= maxMs
    ensures Backoff(1, exponentCap, baseMs, maxMs) == baseMs
    ensures Backoff(attempt + 1, exponentCap, baseMs, maxMs) == Min(maxMs, 2 * Backoff(attempt, exponentCap, baseMs, maxMs))
    ensures forall later :: later > exponentCap ==>
              Backoff(later, exponentCap, baseMs, maxMs) == Backoff(exponentCap + 1, exponentCap, baseMs, maxMs)
  {
    assert Pow2(attempt) == 2 * Pow2(attempt - 1);
    assert baseMs * Pow2(attempt) == 2 * (baseMs * Pow2(attempt - 1));
    assert Pow2(0) == 1;
  }

  /** The sum of f over the rows of a table. */
  function Sum<T>(rows: seq<T>, f: T -> int): int {
    if rows == [] then 0 else Sum(rows[..|rows| - 1], f) + f(rows[|rows| - 1])
  }

  lemma {:induction false} SumAppend<T>(a: seq<T>, b: seq<T>, f: T -> int)
    ensures Sum(a + b, f) == Sum(a, f) + Sum(b, f)
  {
    if b == [] {
      assert a + b == a;
    } else {
      assert (a + b)[..|a + b| - 1] == a + b[..|b| - 1];
      SumAppend(a, b[..|b| - 1], f);
    }
  }

  lemma SumLast<T>(rows: seq<T>, x: T, f: T -> int)
    ensures Sum(rows + [x], f) == Sum(rows, f) + f(x)
  {
    assert (rows + [x])[..|rows|] == rows;
  }

  lemma SumOne<T>(x: T, f: T -> int)
    ensures Sum([x], f) == f(x)
  {
    assert [x][..0] == [];
  }

  /** Two rows, each of which may be missing. */
  lemma SumOfTwo<T>(first: bool, x: T, second: bool, y: T, f: T -> int)
    ensures Sum((if first then [x] else []) + (if second then [y] else []), f)
            == (if first then f(x) else 0) + (if second then f(y) else 0)
  {
    SumAppend(if first then [x] else [], if second then [y] else [], f);
    SumOne(x, f);
    SumOne(y, f);
  }

  lemma {:induction false} SumUpdate<T>(rows: seq<T>, i: nat, x: T, f: T -> int)
    requires i < |rows|
    ensures Sum(rows[i := x], f) == Sum(rows, f) - f(rows[i]) + f(x)
  {
    var last := |rows| - 1;
    if i == last {
      assert rows[i := x][..last] == rows[..last];
    } else {
      assert rows[i := x][..last] == rows[..last][i := x];
      SumUpdate(rows[..last], i, x, f);
    }
  }

  /** Summing the first k rows and then row k sums the first k + 1 rows. */
  lemma SumTake<T>(rows: seq<T>, k: nat, f: T -> int)
    requires k < |rows|
    ensures Sum(rows[..k + 1], f) == Sum(rows[..k], f) + f(rows[k])
  {
    assert rows[..k + 1][..k] == rows[..k];
  }

  lemma {:induction false} SumBounded<T>(rows: seq<T>, f: T -> int, g: T -> int)
    requires forall k :: 0 <= k < |rows| ==> f(rows[k]) <= g(rows[k])
    ensures Sum(rows, f) <= Sum(rows, g)
  {
    if rows != [] {
      SumBounded(rows[..|rows| - 1], f, g);
    }
  }

  lemma {:induction false} SumPointwise<T>(a: seq<T>, b: seq<T>, f: T -> int)
    requires |a| == |b| && forall k :: 0 <= k < |a| ==> f(a[k]) == f(b[k])
    ensures Sum(a, f) == Sum(b, f)
  {
    if a != [] { SumPointwise(a[..|a| - 1], b[..|b| - 1], f); }
  }

  lemma {:induction false} SumPointwiseAtMost<T>(a: seq<T>, b: seq<T>, f: T -> int)
    requires |a| == |b| && forall k :: 0 <= k < |a| ==> f(a[k]) <= f(b[k])
    ensures Sum(a, f) <= Sum(b, f)
  {
    if a != [] { SumPointwiseAtMost(a[..|a| - 1], b[..|b| - 1], f); }
  }

  lemma {:induction false} SumNonNegative<T>(rows: seq<T>, f: T -> int)
    requires forall k :: 0 <= k < |rows| ==> f(rows[k]) >= 0
    ensures Sum(rows, f) >= 0
  {
    if rows != [] { SumNonNegative(rows[..|rows| - 1], f); }
  }

  lemma {:induction false} SumZero<T>(rows: seq<T>, f: T -> int)
    requires forall k :: 0 <= k < |rows| ==> f(rows[k]) == 0
    ensures Sum(rows, f) == 0
  {
    if rows != [] {
      SumZero(rows[..|rows| - 1], f);
    }
  }

  /** Taking one occurrence of x out of the rows takes f(x) out of the sum. */
  lemma TakeOut<T>(rows: seq<T>, x: T, f: T -> int) returns (rest: seq<T>)
    requires x in rows
    ensures multiset(rest) == multiset(rows) - multiset{x}
    ensures Sum(rows, f) == Sum(rest, f) + f(x)
  {
    var i :| 0 <= i < |rows| && rows[i] == x;
    var before, after := rows[..i], rows[i + 1..];
    rest := before + after;
    assert rows == before + [x] + after;
    SumAppend(before, after, f);
    SumAppend(before + [x], after, f);
    assert (before + [x])[..i] == before;
  }

  /** A sum does not depend on the order of the rows. */
  lemma {:induction false} SumOfPermutation<T>(a: seq<T>, b: seq<T>, f: T -> int)
    requires multiset(a) == multiset(b)
    ensures Sum(a, f) == Sum(b, f)
    decreases |a|
  {
    assert |a| == |multiset(a)| == |multiset(b)| == |b|;
    if a != [] {
      assert a[0] in multiset(b);
      var restA := TakeOut(a, a[0], f);
      var restB := TakeOut(b, a[0], f);
      assert |restA| == |multiset(restA)| == |a| - 1;
      SumOfPermutation(restA, restB, f);
    }
  }
}
