/**
 * The JavaScript array built-ins the expense tracker relies on, stated on
 * sequences: `filter`, the stable `sort` with a descending numeric
 * comparator, and summation as done by a `forEach` accumulator.
 */
module Seqs {

  /** `xs.filter(p)`: the elements satisfying `p`, in their original order. */
  function Filter<T>(p: T -> bool, xs: seq<T>): (r: seq<T>)
    ensures |r| <= |xs|
    ensures forall x :: x in r ==> x in xs
    ensures forall x :: x in xs ==> (x in r <==> p(x))
    ensures forall i :: 0 <= i < |r| ==> p(r[i])
  {
    if xs == [] then []
    else if p(xs[0]) then [xs[0]] + Filter(p, xs[1..])
    else Filter(p, xs[1..])
  }

  /** `r` can be obtained from `xs` by deleting elements (order is kept). */
  ghost predicate IsSubsequence<T>(r: seq<T>, xs: seq<T>)
    decreases |xs|
  {
    if r == [] then true
    else if xs == [] then false
    else (r[0] == xs[0] && IsSubsequence(r[1..], xs[1..])) || IsSubsequence(r, xs[1..])
  }

  lemma {:induction false} FilterIsSubsequence<T>(p: T -> bool, xs: seq<T>)
    ensures IsSubsequence(Filter(p, xs), xs)
  {
    if xs != [] {
      FilterIsSubsequence(p, xs[1..]);
      var r := Filter(p, xs);
      if p(xs[0]) {
        assert r[0] == xs[0] && r[1..] == Filter(p, xs[1..]);
      }
    }
  }

  /**
   * `filter` keeps every copy of an accepted element and no copy of a
   * rejected one.
   */
  lemma {:induction false} FilterCount<T>(p: T -> bool, xs: seq<T>)
    ensures forall x :: multiset(Filter(p, xs))[x] == if p(x) then multiset(xs)[x] else 0
  {
    if xs != [] {
      FilterCount(p, xs[1..]);
      assert xs == [xs[0]] + xs[1..];
    }
  }

  /** A filter that every element passes is the identity. */
  lemma {:induction false} FilterAll<T>(p: T -> bool, xs: seq<T>)
    requires forall x :: x in xs ==> p(x)
    ensures Filter(p, xs) == xs
  {
    if xs != [] {
      FilterAll(p, xs[1..]);
    }
  }

  /** A filter that no element passes yields the empty sequence. */
  lemma {:induction false} FilterNone<T>(p: T -> bool, xs: seq<T>)
    ensures Filter(p, xs) == [] <==> forall x :: x in xs ==> !p(x)
  {
    if xs != [] {
      FilterNone(p, xs[1..]);
    }
  }

  /** Filtering twice with the same predicate is filtering once. */
  lemma FilterIdempotent<T>(p: T -> bool, xs: seq<T>)
    ensures Filter(p, Filter(p, xs)) == Filter(p, xs)
  {
    FilterAll(p, Filter(p, xs));
  }

  /** Two predicates that agree on the elements give the same filter. */
  lemma {:induction false} FilterCongruent<T>(p: T -> bool, q: T -> bool, xs: seq<T>)
    requires forall x :: x in xs ==> p(x) == q(x)
    ensures Filter(p, xs) == Filter(q, xs)
  {
    if xs != [] {
      FilterCongruent(p, q, xs[1..]);
    }
  }

  lemma {:induction false} FilterConcat<T>(p: T -> bool, xs: seq<T>, ys: seq<T>)
    ensures Filter(p, xs + ys) == Filter(p, xs) + Filter(p, ys)
  {
    if xs == [] {
      assert xs + ys == ys;
    } else {
      assert (xs + ys)[1..] == xs[1..] + ys;
      FilterConcat(p, xs[1..], ys);
    }
  }

  /** `xs.map(f)`. */
  function Map<T, U>(f: T -> U, xs: seq<T>): (r: seq<U>)
    ensures |r| == |xs|
    ensures forall i :: 0 <= i < |xs| ==> r[i] == f(xs[i])
  {
    if xs == [] then [] else [f(xs[0])] + Map(f, xs[1..])
  }

  /** The total of `f` over `xs`, accumulated left to right from 0. */
  function Sum<T>(f: T -> real, xs: seq<T>): real
  {
    if xs == [] then 0.0 else f(xs[0]) + Sum(f, xs[1..])
  }

  lemma {:induction false} SumConcat<T>(f: T -> real, xs: seq<T>, ys: seq<T>)
    ensures Sum(f, xs + ys) == Sum(f, xs) + Sum(f, ys)
  {
    if xs == [] {
      assert xs + ys == ys;
    } else {
      assert (xs + ys)[1..] == xs[1..] + ys;
      SumConcat(f, xs[1..], ys);
    }
  }

  /** Extending the sequence by one element adds that element's value. */
  lemma SumSnoc<T>(f: T -> real, xs: seq<T>, x: T)
    ensures Sum(f, xs + [x]) == Sum(f, xs) + f(x)
  {
    SumConcat(f, xs, [x]);
  }

  /** Non-increasing by `key`, as a comparator `key(b) - key(a)` sorts. */
  ghost predicate SortedDesc<T>(xs: seq<T>, key: T -> real)
  {
    forall i, j :: 0 <= i < j < |xs| ==> key(xs[i]) >= key(xs[j])
  }

  /**
   * Inserts `x` in front of the first element whose key is not larger,
   * so `x` lands before every element of equal key: the step of a stable
   * sort in which `x` came first.
   */
  function Insert<T>(x: T, s: seq<T>, key: T -> real): (r: seq<T>)
    ensures multiset(r) == multiset(s) + multiset{x}
    ensures |r| == |s| + 1
  {
    if s == [] || key(s[0]) <= key(x) then [x] + s
    else
      assert s == [s[0]] + s[1..];
      [s[0]] + Insert(x, s[1..], key)
  }

  /** `[...xs].sort((a, b) => key(b) - key(a))`: a stable descending sort. */
  function SortDesc<T>(xs: seq<T>, key: T -> real): (r: seq<T>)
    ensures multiset(r) == multiset(xs)
    ensures |r| == |xs|
  {
    if xs == [] then []
    else
      assert xs == [xs[0]] + xs[1..];
      Insert(xs[0], SortDesc(xs[1..], key), key)
  }

  lemma {:induction false} InsertSorted<T>(x: T, s: seq<T>, key: T -> real)
    requires SortedDesc(s, key)
    ensures SortedDesc(Insert(x, s, key), key)
  {
    if s != [] && key(s[0]) > key(x) {
      InsertSorted(x, s[1..], key);
      var tail := Insert(x, s[1..], key);
      forall y | y in tail
        ensures key(s[0]) >= key(y)
      {
        assert y in multiset(tail);
        assert y == x || y in multiset(s[1..]);
      }
    }
  }

  lemma {:induction false} SortDescSorted<T>(xs: seq<T>, key: T -> real)
    ensures SortedDesc(SortDesc(xs, key), key)
  {
    if xs != [] {
      SortDescSorted(xs[1..], key);
      InsertSorted(xs[0], SortDesc(xs[1..], key), key);
    }
  }

  /** Elements related by `p` all share one key. */
  ghost predicate SameKey<T(!new)>(p: T -> bool, key: T -> real)
  {
    forall a, b :: p(a) && p(b) ==> key(a) == key(b)
  }

  lemma {:induction false} InsertStable<T(!new)>(x: T, s: seq<T>, key: T -> real, p: T -> bool)
    requires SameKey(p, key)
    ensures Filter(p, Insert(x, s, key)) == Filter(p, [x]) + Filter(p, s)
  {
    if s == [] || key(s[0]) <= key(x) {
      FilterConcat(p, [x], s);
    } else {
      InsertStable(x, s[1..], key, p);
      FilterConcat(p, [s[0]], Insert(x, s[1..], key));
      FilterConcat(p, [s[0]], s[1..]);
      assert [s[0]] + s[1..] == s;
      if p(x) {
        assert !p(s[0]);
      }
    }
  }

  /**
   * Stability: every class of elements sharing one key (picked out by `p`)
   * appears in the sorted output in its original relative order.
   */
  lemma {:induction false} SortDescStable<T(!new)>(xs: seq<T>, key: T -> real, p: T -> bool)
    requires SameKey(p, key)
    ensures Filter(p, SortDesc(xs, key)) == Filter(p, xs)
  {
    if xs != [] {
      var rest := SortDesc(xs[1..], key);
      calc {
        Filter(p, SortDesc(xs, key));
        Filter(p, Insert(xs[0], rest, key));
        { InsertStable(xs[0], rest, key, p); }
        Filter(p, [xs[0]]) + Filter(p, rest);
        { SortDescStable(xs[1..], key, p); }
        Filter(p, [xs[0]]) + Filter(p, xs[1..]);
        { FilterConcat(p, [xs[0]], xs[1..]); assert [xs[0]] + xs[1..] == xs; }
        Filter(p, xs);
      }
    }
  }

  /** `xs.slice(0, n)`. */
  function Take<T>(xs: seq<T>, n: nat): (r: seq<T>)
    ensures |r| == if |xs| < n then |xs| else n
    ensures r == xs[..|r|]
  {
    if |xs| <= n then xs else xs[..n]
  }

  /**
   * Cutting a sorted sequence after `n` elements keeps the largest ones:
   * the kept and dropped parts make up the whole, and no dropped element
   * has a larger key than a kept one.
   */
  lemma TakeKeepsLargest<T>(s: seq<T>, n: nat, key: T -> real)
    requires SortedDesc(s, key)
    ensures multiset(Take(s, n)) + multiset(s[|Take(s, n)|..]) == multiset(s)
    ensures forall x, y :: x in Take(s, n) && y in s[|Take(s, n)|..] ==> key(x) >= key(y)
  {
    var t := Take(s, n);
    var rest := s[|t|..];
    assert s == t + rest;
    forall x, y | x in t && y in rest ensures key(x) >= key(y) {
      var i :| 0 <= i < |t| && t[i] == x;
      var j :| 0 <= j < |rest| && rest[j] == y;
      assert s[i] == x && s[|t| + j] == y;
    }
  }
}
