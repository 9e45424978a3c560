/** Sequence operations shared by several modules: `filter`, `[...new Set(xs)]` and the search behind `indexOf`. */
module Seqs {
  import opened Wrappers

  /** No element occurs twice. */
  predicate NoDuplicates<T(==)>(xs: seq<T>) {
    forall i, j :: 0 <= i < j < |xs| ==> xs[i] != xs[j]
  }

  /** `xs.filter(p)` */
  function Filter<T>(xs: seq<T>, p: T -> bool): (r: seq<T>)
    ensures |r| <= |xs|
    ensures forall x :: x in r ==> x in xs && p(x)
    ensures forall x :: x in xs && p(x) ==> x in r
  {
    if xs == [] then [] else Filter(xs[..|xs| - 1], p) + (if p(xs[|xs| - 1]) then [xs[|xs| - 1]] else [])
  }

  /** Filtering one more element at the end. */
  lemma FilterSnoc<T>(xs: seq<T>, x: T, p: T -> bool)
    ensures Filter(xs + [x], p) == Filter(xs, p) + (if p(x) then [x] else [])
  {
    assert (xs + [x])[..|xs|] == xs;
  }

  /** Filtering one more element of a prefix. */
  lemma FilterPrefixStep<T>(xs: seq<T>, i: nat, p: T -> bool)
    requires i < |xs|
    ensures Filter(xs[..i + 1], p) == Filter(xs[..i], p) + (if p(xs[i]) then [xs[i]] else [])
  {
    assert xs[..i + 1] == xs[..i] + [xs[i]];
    FilterSnoc(xs[..i], xs[i], p);
  }

  /** A filter that no element passes is empty. */
  lemma {:induction false} FilterNone<T>(xs: seq<T>, p: T -> bool)
    requires forall x :: x in xs ==> !p(x)
    ensures Filter(xs, p) == []
  {
    if xs != [] {
      FilterNone(xs[..|xs| - 1], p);
      assert xs[|xs| - 1] in xs;
    }
  }

  /** Filtering a concatenation filters each part. */
  lemma {:induction false} FilterAppend<T>(a: seq<T>, b: seq<T>, p: T -> bool)
    ensures Filter(a + b, p) == Filter(a, p) + Filter(b, p)
    decreases |b|
  {
    if b != [] {
      assert (a + b)[..|a + b| - 1] == a + b[..|b| - 1];
      FilterAppend(a, b[..|b| - 1], p);
    } else {
      assert a + b == a;
    }
  }

  /** A filter that every element passes keeps the whole sequence. */
  lemma {:induction false} FilterAll<T>(xs: seq<T>, p: T -> bool)
    requires forall x :: x in xs ==> p(x)
    ensures Filter(xs, p) == xs
  {
    if xs != [] {
      FilterAll(xs[..|xs| - 1], p);
      assert xs[|xs| - 1] in xs;
      assert xs == xs[..|xs| - 1] + [xs[|xs| - 1]];
    }
  }

  /** Filtering keeps the multiplicity of every kept element and drops the others. */
  lemma {:induction false} FilterMultiset<T>(xs: seq<T>, p: T -> bool)
    ensures forall x :: multiset(Filter(xs, p))[x] == if p(x) then multiset(xs)[x] else 0
  {
    if xs != [] {
      FilterMultiset(xs[..|xs| - 1], p);
      assert xs == xs[..|xs| - 1] + [xs[|xs| - 1]];
    }
  }

  /** Two complementary filters split a sequence's elements between them. */
  lemma FilterPartition<T(!new)>(xs: seq<T>, p: T -> bool, q: T -> bool)
    requires forall x :: q(x) == !p(x)
    ensures multiset(Filter(xs, p)) + multiset(Filter(xs, q)) == multiset(xs)
  {
    FilterMultiset(xs, p);
    FilterMultiset(xs, q);
    var a := multiset(Filter(xs, p));
    var b := multiset(Filter(xs, q));
    forall x ensures (a + b)[x] == multiset(xs)[x] {
      assert a[x] == if p(x) then multiset(xs)[x] else 0;
      assert b[x] == if q(x) then multiset(xs)[x] else 0;
      assert (a + b)[x] == a[x] + b[x];
    }
    assert a + b == multiset(xs);
  }

  /** `xs.map(f).filter(Boolean)` for an `f` that answers `null` or an object. */
  function FilterMap<T, U>(xs: seq<T>, f: T -> Option<U>): (r: seq<U>)
    ensures |r| <= |xs|
  {
    if xs == [] then []
    else
      var y := f(xs[|xs| - 1]);
      FilterMap(xs[..|xs| - 1], f) + (if y.Some? then [y.value] else [])
  }

  lemma FilterMapSnoc<T, U>(xs: seq<T>, x: T, f: T -> Option<U>)
    ensures FilterMap(xs + [x], f) == FilterMap(xs, f) + (if f(x).Some? then [f(x).value] else [])
  {
    assert (xs + [x])[..|xs|] == xs;
  }

  /** The results kept are exactly the answers of some element. */
  lemma {:induction false} FilterMapMembers<T, U>(xs: seq<T>, f: T -> Option<U>, u: U)
    ensures u in FilterMap(xs, f) <==> exists i :: 0 <= i < |xs| && f(xs[i]) == Some(u)
  {
    if xs != [] {
      var init := xs[..|xs| - 1];
      FilterMapMembers(init, f, u);
      if exists i :: 0 <= i < |xs| && f(xs[i]) == Some(u) {
        var i :| 0 <= i < |xs| && f(xs[i]) == Some(u);
        if i < |xs| - 1 {
          assert init[i] == xs[i];
        }
      }
    }
  }

  /** Mapping a concatenation maps each part, so the results keep the order of the elements. */
  lemma {:induction false} FilterMapAppend<T, U>(a: seq<T>, b: seq<T>, f: T -> Option<U>)
    ensures FilterMap(a + b, f) == FilterMap(a, f) + FilterMap(b, f)
    decreases |b|
  {
    if b == [] {
      assert a + b == a;
    } else {
      assert (a + b)[..|a + b| - 1] == a + b[..|b| - 1] && (a + b)[|a + b| - 1] == b[|b| - 1];
      FilterMapAppend(a, b[..|b| - 1], f);
    }
  }

  /** `xs.flatMap(f)`, built from the left like a loop that pushes `f(x)` for each `x`. */
  function FlatMap<T, U>(xs: seq<T>, f: T -> seq<U>): seq<U> {
    if xs == [] then [] else FlatMap(xs[..|xs| - 1], f) + f(xs[|xs| - 1])
  }

  /** Flat-mapping a concatenation flat-maps each part in turn. */
  lemma {:induction false} FlatMapAppend<T, U>(a: seq<T>, b: seq<T>, f: T -> seq<U>)
    ensures FlatMap(a + b, f) == FlatMap(a, f) + FlatMap(b, f)
    decreases |b|
  {
    if b == [] {
      assert a + b == a;
    } else {
      assert (a + b)[..|a + b| - 1] == a + b[..|b| - 1] && (a + b)[|a + b| - 1] == b[|b| - 1];
      FlatMapAppend(a, b[..|b| - 1], f);
    }
  }

  /** An index into `xs[1..]` is an index from 1 into `xs`. */
  lemma ShiftedExists<T>(xs: seq<T>, P: T -> bool)
    requires |xs| >= 1
    ensures (exists j :: 0 <= j < |xs[1..]| && P(xs[1..][j])) <==> (exists i :: 1 <= i < |xs| && P(xs[i]))
  {
    if exists i :: 1 <= i < |xs| && P(xs[i]) {
      var i :| 1 <= i < |xs| && P(xs[i]);
      assert xs[1..][i - 1] == xs[i];
    }
  }

  /** The first position from `p` below `n` where `ok` holds, or `n` when there is none. */
  function FirstFrom(n: nat, p: nat, ok: nat -> bool): (i: nat)
    requires p <= n
    ensures p <= i <= n
    decreases n - p
  {
    if p == n || ok(p) then p else FirstFrom(n, p + 1, ok)
  }

  /** The search stops where `ok` holds, and at the first such position. */
  lemma {:induction false} FirstFromLeftmost(n: nat, p: nat, ok: nat -> bool)
    requires p <= n
    ensures FirstFrom(n, p, ok) < n ==> ok(FirstFrom(n, p, ok))
    ensures forall j :: p <= j < FirstFrom(n, p, ok) ==> !ok(j)
    decreases n - p
  {
    if p < n && !ok(p) {
      FirstFromLeftmost(n, p + 1, ok);
    }
  }

  /** A position where `ok` holds with no such position before it is the one the search finds. */
  lemma {:induction false} FirstFromAt(n: nat, p: nat, ok: nat -> bool, i: nat)
    requires p <= i < n && ok(i)
    requires forall j :: p <= j < i ==> !ok(j)
    ensures FirstFrom(n, p, ok) == i
    decreases i - p
  {
    if p < i {
      FirstFromAt(n, p + 1, ok, i);
    }
  }

  /** Position of the first occurrence of `x`. */
  function FirstIndex<T(==)>(xs: seq<T>, x: T): (i: nat)
    requires x in xs
    ensures i < |xs| && xs[i] == x && x !in xs[..i]
  {
    if xs[0] == x then 0 else 1 + FirstIndex(xs[1..], x)
  }

  /** `[...new Set(xs)]`: each element once, at its first occurrence. */
  function Distinct<T(==)>(xs: seq<T>): (d: seq<T>)
    ensures NoDuplicates(d)
    ensures forall x :: x in d ==> x in xs
    ensures forall x :: x in xs ==> x in d
  {
    if xs == [] then []
    else
      var d := Distinct(xs[..|xs| - 1]);
      var x := xs[|xs| - 1];
      if x in d then d else d + [x]
  }

  /** `Distinct` of one more element at the end. */
  lemma DistinctSnoc<T>(xs: seq<T>, x: T)
    ensures Distinct(xs + [x]) == if x in Distinct(xs) then Distinct(xs) else Distinct(xs) + [x]
  {
    assert (xs + [x])[..|xs|] == xs;
  }

  /** An occurrence with no earlier one is the first occurrence. */
  lemma {:induction false} FirstIndexUnique<T>(xs: seq<T>, x: T, i: nat)
    requires i < |xs| && xs[i] == x && x !in xs[..i]
    ensures FirstIndex(xs, x) == i
  {
    if i > 0 {
      assert xs[0] in xs[..i];
      assert xs[1..][..i - 1] == xs[..i][1..];
      FirstIndexUnique(xs[1..], x, i - 1);
    }
  }

  lemma FirstIndexInPrefix<T>(xs: seq<T>, n: nat, x: T)
    requires n <= |xs| && x in xs[..n]
    ensures x in xs && FirstIndex(xs, x) == FirstIndex(xs[..n], x)
  {
    var i := FirstIndex(xs[..n], x);
    assert xs[..n][..i] == xs[..i];
    FirstIndexUnique(xs, x, i);
  }

  /** The distinct elements come in the order of their first occurrences. */
  lemma {:induction false} DistinctKeepsFirstOccurrenceOrder<T>(xs: seq<T>)
    ensures forall i, j :: 0 <= i < j < |Distinct(xs)| ==>
              FirstIndex(xs, Distinct(xs)[i]) < FirstIndex(xs, Distinct(xs)[j])
  {
    if xs != [] {
      var init := xs[..|xs| - 1];
      var x := xs[|xs| - 1];
      var d := Distinct(init);
      DistinctKeepsFirstOccurrenceOrder(init);
      forall y | y in d
        ensures FirstIndex(xs, y) == FirstIndex(init, y)
      {
        FirstIndexInPrefix(xs, |xs| - 1, y);
      }
      if x !in d {
        assert x !in init;
        FirstIndexUnique(xs, x, |xs| - 1);
        assert Distinct(xs) == d + [x];
      }
    }
  }

  /** Non-decreasing by `key`. */
  predicate SortedBy<T>(xs: seq<T>, key: T -> int) {
    forall i, j :: 0 <= i < j < |xs| ==> key(xs[i]) <= key(xs[j])
  }

  /** Inserts `x` before the first element whose key is not smaller. */
  function InsertBy<T>(x: T, sorted: seq<T>, key: T -> int): (r: seq<T>)
    ensures multiset(r) == multiset(sorted) + multiset{x}
  {
    if sorted == [] || key(x) <= key(sorted[0]) then [x] + sorted
    else
      assert sorted == [sorted[0]] + sorted[1..];
      [sorted[0]] + InsertBy(x, sorted[1..], key)
  }

  lemma {:induction false} InsertBySorted<T>(x: T, sorted: seq<T>, key: T -> int)
    requires SortedBy(sorted, key)
    ensures SortedBy(InsertBy(x, sorted, key), key)
  {
    if sorted != [] && key(x) > key(sorted[0]) {
      var rest := InsertBy(x, sorted[1..], key);
      InsertBySorted(x, sorted[1..], key);
      forall y | y in rest ensures key(sorted[0]) <= key(y) {
        assert y in multiset(rest);
        if y != x {
          assert y in sorted[1..];
        }
      }
    }
  }

  /** An insertion sort by `key` (stable). */
  function SortBy<T>(xs: seq<T>, key: T -> int): (r: seq<T>)
    ensures multiset(r) == multiset(xs)
    ensures SortedBy(r, key)
  {
    if xs == [] then []
    else
      InsertBySorted(xs[0], SortBy(xs[1..], key), key);
      assert xs == [xs[0]] + xs[1..];
      InsertBy(xs[0], SortBy(xs[1..], key), key)
  }

  /** The elements whose key is `v`. */
  function KeyIs<T>(key: T -> int, v: int): T -> bool {
    (y: T) => key(y) == v
  }

  /** `Filter`, unfolded from the front: the form the insertion sort's proofs need. */
  function FilterFront<T>(xs: seq<T>, p: T -> bool): seq<T> {
    if xs == [] then [] else (if p(xs[0]) then [xs[0]] else []) + FilterFront(xs[1..], p)
  }

  lemma {:induction false} FilterFrontIsFilter<T>(xs: seq<T>, p: T -> bool)
    ensures FilterFront(xs, p) == Filter(xs, p)
  {
    if xs != [] {
      FilterFrontIsFilter(xs[1..], p);
      assert xs == [xs[0]] + xs[1..];
      FilterAppend([xs[0]], xs[1..], p);
      assert [xs[0]][..0] == [];
    }
  }

  lemma {:induction false} InsertByStable<T>(x: T, sorted: seq<T>, key: T -> int, v: int)
    ensures FilterFront(InsertBy(x, sorted, key), KeyIs(key, v))
         == (if key(x) == v then [x] else []) + FilterFront(sorted, KeyIs(key, v))
  {
    if sorted != [] && key(x) > key(sorted[0]) {
      InsertByStable(x, sorted[1..], key, v);
    }
  }

  /** The sort is stable: the elements of each key keep their relative order. */
  lemma {:induction false} SortByStable<T>(xs: seq<T>, key: T -> int, v: int)
    ensures Filter(SortBy(xs, key), KeyIs(key, v)) == Filter(xs, KeyIs(key, v))
  {
    SortByStableFront(xs, key, v);
    FilterFrontIsFilter(xs, KeyIs(key, v));
    FilterFrontIsFilter(SortBy(xs, key), KeyIs(key, v));
  }

  lemma {:induction false} SortByStableFront<T>(xs: seq<T>, key: T -> int, v: int)
    ensures FilterFront(SortBy(xs, key), KeyIs(key, v)) == FilterFront(xs, KeyIs(key, v))
  {
    if xs != [] {
      SortByStableFront(xs[1..], key, v);
      InsertByStable(xs[0], SortBy(xs[1..], key), key, v);
    }
  }
}
