/**
 Stable sorting by a key order, filtering and mapping, as the reconciler uses them, and the
 fact that makes a sorted list canonical: two sorted arrangements of the same elements are
 equal when elements that compare equal are equal.
 */
module Ordering {
  import opened Sequences

  /** `str`'s order: lexicographic by code point. */
  predicate LtStr(a: string, b: string)
    decreases |a|
  {
    if b == [] then false
    else if a == [] then true
    else if a[0] != b[0] then a[0] < b[0]
    else LtStr(a[1..], b[1..])
  }

  lemma {:induction false} LtStrTotal(a: string, b: string)
    ensures a == b || LtStr(a, b) || LtStr(b, a)
    ensures !(LtStr(a, b) && LtStr(b, a)) && !LtStr(a, a)
    decreases |a|
  {
    if a != [] {
      LtStrTotal(a[1..], a[1..]);
      if b != [] && a[0] == b[0] {
        LtStrTotal(a[1..], b[1..]);
        assert a == [a[0]] + a[1..] && b == [b[0]] + b[1..];
      }
    }
  }

  lemma {:induction false} LtStrTransitive(a: string, b: string, c: string)
    ensures LtStr(a, b) && LtStr(b, c) ==> LtStr(a, c)
    decreases |a|
  {
    if a != [] && b != [] && c != [] && a[0] == b[0] && b[0] == c[0] {
      LtStrTransitive(a[1..], b[1..], c[1..]);
    }
  }

  /** One field of a tuple comparison: decide by it, or by the remaining fields when it is equal. */
  predicate Then(a: string, b: string, rest: bool)
  {
    LtStr(a, b) || (a == b && rest)
  }

  ghost predicate TotalOrder<T(!new)>(le: (T, T) -> bool)
  {
    && (forall x, y :: le(x, y) || le(y, x))
    && (forall x, y, z :: le(x, y) && le(y, z) ==> le(x, z))
  }

  ghost predicate Sorted<T>(xs: seq<T>, le: (T, T) -> bool)
  {
    forall i, j :: 0 <= i < j < |xs| ==> le(xs[i], xs[j])
  }

  /** `x` arrived before `xs`, so it goes in front of the elements it compares equal to. */
  function Insert<T>(x: T, xs: seq<T>, le: (T, T) -> bool): seq<T>
    decreases |xs|
  {
    if xs == [] then [x]
    else if le(x, xs[0]) then [x] + xs
    else [xs[0]] + Insert(x, xs[1..], le)
  }

  function Sort<T>(xs: seq<T>, le: (T, T) -> bool): seq<T>
    decreases |xs|
  {
    if xs == [] then [] else Insert(xs[0], Sort(xs[1..], le), le)
  }

  lemma {:induction false} InsertPermutes<T>(x: T, xs: seq<T>, le: (T, T) -> bool)
    ensures multiset(Insert(x, xs, le)) == multiset{x} + multiset(xs)
    decreases |xs|
  {
    if xs != [] && !le(x, xs[0]) {
      InsertPermutes(x, xs[1..], le);
      assert xs == [xs[0]] + xs[1..];
    }
  }

  lemma {:induction false} InsertSorted<T(!new)>(x: T, xs: seq<T>, le: (T, T) -> bool)
    requires TotalOrder(le) && Sorted(xs, le)
    ensures Sorted(Insert(x, xs, le), le)
    decreases |xs|
  {
    if xs != [] && !le(x, xs[0]) {
      var rest := Insert(x, xs[1..], le);
      InsertSorted(x, xs[1..], le);
      InsertPermutes(x, xs[1..], le);
      forall j | 0 <= j < |rest| ensures le(xs[0], rest[j]) {
        assert rest[j] in multiset(rest);
        if rest[j] != x {
          assert rest[j] in xs[1..];
        }
      }
    }
  }

  /** Sorting rearranges and orders. */
  lemma {:induction false} SortSorts<T(!new)>(xs: seq<T>, le: (T, T) -> bool)
    requires TotalOrder(le)
    ensures Sorted(Sort(xs, le), le) && multiset(Sort(xs, le)) == multiset(xs)
    decreases |xs|
  {
    if xs != [] {
      SortSorts(xs[1..], le);
      InsertSorted(xs[0], Sort(xs[1..], le), le);
      InsertPermutes(xs[0], Sort(xs[1..], le), le);
      assert xs == [xs[0]] + xs[1..];
    }
  }

  /** Elements of `xs` that compare equal are equal. */
  ghost predicate Strict<T(!new)>(xs: seq<T>, le: (T, T) -> bool)
  {
    forall x, y :: x in xs && y in xs && le(x, y) && le(y, x) ==> x == y
  }

  lemma {:induction false} SortedUnique<T(!new)>(xs: seq<T>, ys: seq<T>, le: (T, T) -> bool)
    requires TotalOrder(le) && Sorted(xs, le) && Sorted(ys, le) && Strict(xs, le)
    requires multiset(xs) == multiset(ys)
    ensures xs == ys
    decreases |xs|
  {
    SameLength(xs, ys);
    if xs != [] {
      assert xs[0] in multiset(ys) && ys[0] in multiset(xs);
      HeadLeast(xs, ys[0], le);
      HeadLeast(ys, xs[0], le);
      TailsMatch(xs, ys);
      TailKeeps(xs, le);
      TailKeeps(ys, le);
      SortedUnique(xs[1..], ys[1..], le);
      assert xs == [xs[0]] + xs[1..] && ys == [ys[0]] + ys[1..];
    }
  }

  lemma {:induction false} TailKeeps<T(!new)>(xs: seq<T>, le: (T, T) -> bool)
    requires xs != [] && Sorted(xs, le)
    ensures Sorted(xs[1..], le) && (Strict(xs, le) ==> Strict(xs[1..], le))
  {
  }

  lemma {:induction false} HeadLeast<T(!new)>(xs: seq<T>, x: T, le: (T, T) -> bool)
    requires TotalOrder(le) && Sorted(xs, le) && xs != [] && x in xs
    ensures le(xs[0], x)
  {
  }

  /** Sorting two arrangements of the same elements gives the same list. */
  lemma {:induction false} SortCanonical<T(!new)>(xs: seq<T>, ys: seq<T>, le: (T, T) -> bool)
    requires TotalOrder(le) && Strict(xs, le) && multiset(xs) == multiset(ys)
    ensures Sort(xs, le) == Sort(ys, le)
  {
    SortSorts(xs, le);
    SortSorts(ys, le);
    forall x | x in Sort(xs, le) ensures x in xs { assert x in multiset(Sort(xs, le)); }
    SortedUnique(Sort(xs, le), Sort(ys, le), le);
  }

  /** Elements that do not compare equal can be inserted in either order. */
  lemma {:induction false} InsertCommutes<T(!new)>(a: T, b: T, xs: seq<T>, le: (T, T) -> bool)
    requires TotalOrder(le) && !(le(a, b) && le(b, a))
    ensures Insert(a, Insert(b, xs, le), le) == Insert(b, Insert(a, xs, le), le)
    decreases |xs|
  {
    if xs != [] && !le(a, xs[0]) && !le(b, xs[0]) {
      InsertCommutes(a, b, xs[1..], le);
    } else if xs != [] {
      assert ([a] + xs)[1..] == xs && ([b] + xs)[1..] == xs;
    }
  }

  /** Sorting is stable: an element may be moved past others that do not compare equal to it. */
  lemma {:induction false} SortMoves<T(!new)>(c: T, p: seq<T>, q: seq<T>, le: (T, T) -> bool)
    requires TotalOrder(le) && forall x :: x in p ==> !(le(c, x) && le(x, c))
    ensures Sort([c] + p + q, le) == Sort(p + [c] + q, le)
    decreases |p|
  {
    if p == [] {
      assert [c] + p + q == p + [c] + q;
    } else {
      var y, r := p[0], p[1..];
      SortMoves(c, r, q, le);
      InsertCommutes(c, y, Sort(r + q, le), le);
      assert ([c] + p + q)[1..] == p + q && (p + q)[1..] == r + q && (p + q)[0] == y;
      assert (p + [c] + q)[1..] == r + [c] + q && (p + [c] + q)[0] == y;
      assert ([c] + r + q)[1..] == r + q;
    }
  }

  // ---- filter and map ----

  function Filter<T>(xs: seq<T>, p: T -> bool): seq<T>
    decreases |xs|
  {
    if xs == [] then []
    else if p(xs[0]) then [xs[0]] + Filter(xs[1..], p)
    else Filter(xs[1..], p)
  }

  lemma {:induction false} FilterAll<T>(xs: seq<T>, p: T -> bool)
    requires forall x :: x in xs ==> p(x)
    ensures Filter(xs, p) == xs
    decreases |xs|
  {
    if xs != [] { FilterAll(xs[1..], p); }
  }

  lemma {:induction false} FilterCount<T>(xs: seq<T>, p: T -> bool, x: T)
    ensures multiset(Filter(xs, p))[x] == if p(x) then multiset(xs)[x] else 0
    ensures x in Filter(xs, p) <==> x in xs && p(x)
    decreases |xs|
  {
    if xs != [] {
      FilterCount(xs[1..], p, x);
      assert xs == [xs[0]] + xs[1..];
    }
  }

  lemma {:induction false} FilterPermutes<T(!new)>(xs: seq<T>, ys: seq<T>, p: T -> bool)
    requires multiset(xs) == multiset(ys)
    ensures multiset(Filter(xs, p)) == multiset(Filter(ys, p))
  {
    forall x ensures multiset(Filter(xs, p))[x] == multiset(Filter(ys, p))[x] {
      FilterCount(xs, p, x);
      FilterCount(ys, p, x);
    }
  }

  function Map<S, T>(xs: seq<S>, f: S -> T): (r: seq<T>)
    ensures |r| == |xs| && forall i :: 0 <= i < |xs| ==> r[i] == f(xs[i])
  {
    seq(|xs|, i requires 0 <= i < |xs| => f(xs[i]))
  }

  lemma {:induction false} MapWithout<S, T>(xs: seq<S>, j: nat, f: S -> T)
    requires j < |xs|
    ensures multiset(Map(xs, f)) == multiset(Map(xs[..j] + xs[j + 1..], f)) + multiset{f(xs[j])}
  {
    var ys := Map(xs, f);
    assert ys[..j] + ys[j + 1..] == Map(xs[..j] + xs[j + 1..], f);
    WithoutAt(ys, j);
    assert ys[j] in multiset(ys);
  }

  lemma {:induction false} MapFirst<S, T>(xs: seq<S>, f: S -> T)
    requires xs != []
    ensures multiset(Map(xs, f)) == multiset(Map(xs[1..], f)) + multiset{f(xs[0])}
  {
    assert Map(xs, f) == [f(xs[0])] + Map(xs[1..], f);
  }

  lemma {:induction false} MapPermutes<S, T>(xs: seq<S>, ys: seq<S>, f: S -> T)
    requires multiset(xs) == multiset(ys)
    ensures multiset(Map(xs, f)) == multiset(Map(ys, f))
    decreases |xs|
  {
    SameLength(xs, ys);
    if xs != [] {
      var j := MatchFirst(xs, ys);
      MapPermutes(xs[1..], ys[..j] + ys[j + 1..], f);
      MapFirst(xs, f);
      MapWithout(ys, j, f);
    }
  }

  lemma {:induction false} MapMembers<S, T>(xs: seq<S>, f: S -> T, y: T)
    ensures y in Map(xs, f) <==> exists x :: x in xs && f(x) == y
  {
  }
}
