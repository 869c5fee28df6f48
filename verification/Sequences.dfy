/** Facts about sequences as multisets that several components use. */
module Sequences {

  /** Dropping the element at `j` removes one occurrence of it. */
  lemma {:induction false} WithoutAt<T>(xs: seq<T>, j: nat)
    requires j < |xs|
    ensures multiset(xs[..j] + xs[j + 1..]) == multiset(xs) - multiset{xs[j]}
  {
    assert xs == xs[..j] + [xs[j]] + xs[j + 1..];
  }

  /** A member can be put first. */
  lemma {:induction false} PutFirst<T>(xs: seq<T>, x: T) returns (rest: seq<T>)
    requires x in xs
    ensures multiset([x] + rest) == multiset(xs)
  {
    var j :| 0 <= j < |xs| && xs[j] == x;
    rest := xs[..j] + xs[j + 1..];
    WithoutAt(xs, j);
    assert x in multiset(xs);
  }

  lemma {:induction false} WithoutFirst<T>(xs: seq<T>)
    requires xs != []
    ensures multiset(xs[1..]) == multiset(xs) - multiset{xs[0]}
  {
    assert xs == [xs[0]] + xs[1..];
  }

  lemma {:induction false} SameLength<T>(xs: seq<T>, ys: seq<T>)
    requires multiset(xs) == multiset(ys)
    ensures |xs| == |ys|
  {
    assert |multiset(xs)| == |multiset(ys)|;
  }

  /** The first element of `xs` sits somewhere in a permutation of it; the rest match too. */
  lemma {:induction false} MatchFirst<T>(xs: seq<T>, ys: seq<T>) returns (j: nat)
    requires xs != [] && multiset(xs) == multiset(ys)
    ensures j < |ys| && ys[j] == xs[0]
    ensures multiset(xs[1..]) == multiset(ys[..j] + ys[j + 1..])
  {
    assert xs[0] in multiset(ys);
    j :| j < |ys| && ys[j] == xs[0];
    WithoutAt(ys, j);
    WithoutFirst(xs);
  }

  lemma {:induction false} TailsMatch<T>(xs: seq<T>, ys: seq<T>)
    requires xs != [] && ys != [] && xs[0] == ys[0] && multiset(xs) == multiset(ys)
    ensures multiset(xs[1..]) == multiset(ys[1..])
  {
    WithoutFirst(xs);
    WithoutFirst(ys);
  }
}
