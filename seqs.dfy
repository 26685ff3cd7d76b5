/** Sequence combinators that the DataFrame operations are built from:
    `filter` keeps the rows satisfying a predicate, `select`/`withColumn` map
    every row, and a stream is a sequence of micro-batches. */
module Seqs {

  /** The rows of `s` that satisfy `p`, in their original order. */
  function Filter<T>(p: T -> bool, s: seq<T>): (r: seq<T>)
    ensures |r| <= |s|
    decreases |s|
  {
    if s == [] then []
    else if p(s[0]) then [s[0]] + Filter(p, s[1..])
    else Filter(p, s[1..])
  }

  /** A row is kept exactly when it is in the input and satisfies the predicate. */
  lemma {:induction false} FilterMembers<T>(p: T -> bool, s: seq<T>)
    ensures forall x :: x in Filter(p, s) <==> x in s && p(x)
    decreases |s|
  {
    if s != [] {
      FilterMembers(p, s[1..]);
    }
  }

  /** A filter keeps every copy of a satisfying row and no copy of any other. */
  lemma {:induction false} FilterMultiset<T>(p: T -> bool, s: seq<T>)
    ensures forall x :: multiset(Filter(p, s))[x] == if p(x) then multiset(s)[x] else 0
    decreases |s|
  {
    if s != [] {
      FilterMultiset(p, s[1..]);
      assert s == [s[0]] + s[1..];
    }
  }

  /** `f` applied to every row, one output per input, in order. */
  function MapSeq<A, B>(f: A -> B, s: seq<A>): (r: seq<B>)
    ensures |r| == |s|
  {
    seq(|s|, i requires 0 <= i < |s| => f(s[i]))
  }

  /** The rows of all batches, batch after batch. */
  function Flatten<T>(ss: seq<seq<T>>): seq<T>
    decreases |ss|
  {
    if ss == [] then [] else ss[0] + Flatten(ss[1..])
  }

  /** `a` can be obtained from `b` by deleting elements. */
  predicate IsSubsequence<T(==)>(a: seq<T>, b: seq<T>)
    decreases |b|
  {
    if a == [] then true
    else if b == [] then false
    else (a[0] == b[0] && IsSubsequence(a[1..], b[1..])) || IsSubsequence(a, b[1..])
  }

  lemma {:induction false} MapSeqMember<A, B>(f: A -> B, s: seq<A>, y: B)
    requires y in MapSeq(f, s)
    ensures exists x :: x in s && y == f(x)
  {
    var i :| 0 <= i < |MapSeq(f, s)| && MapSeq(f, s)[i] == y;
    assert s[i] in s && y == f(s[i]);
  }

  lemma MapSeqHas<A, B>(f: A -> B, s: seq<A>, x: A)
    requires x in s
    ensures f(x) in MapSeq(f, s)
  {
    var i :| 0 <= i < |s| && s[i] == x;
    assert MapSeq(f, s)[i] == f(x);
  }

  lemma FilterSingleton<T>(p: T -> bool, x: T)
    ensures Filter(p, [x]) == if p(x) then [x] else []
  {
    assert [x][1..] == [];
  }

  lemma MapSeqSingleton<A, B>(f: A -> B, x: A)
    ensures MapSeq(f, [x]) == [f(x)]
  {
  }

  lemma MapSeqConcat<A, B>(f: A -> B, a: seq<A>, b: seq<A>)
    ensures MapSeq(f, a + b) == MapSeq(f, a) + MapSeq(f, b)
  {
  }

  lemma {:induction false} FilterConcat<T>(p: T -> bool, a: seq<T>, b: seq<T>)
    ensures Filter(p, a + b) == Filter(p, a) + Filter(p, b)
    decreases |a|
  {
    if a == [] {
      assert a + b == b;
    } else {
      assert (a + b)[0] == a[0];
      assert (a + b)[1..] == a[1..] + b;
      FilterConcat(p, a[1..], b);
    }
  }

  /** A filter deletes rows and reorders nothing. */
  lemma {:induction false} FilterSubsequence<T>(p: T -> bool, s: seq<T>)
    ensures IsSubsequence(Filter(p, s), s)
    decreases |s|
  {
    if s != [] {
      FilterSubsequence(p, s[1..]);
      if p(s[0]) {
        assert Filter(p, s)[0] == s[0];
        assert Filter(p, s)[1..] == Filter(p, s[1..]);
      }
    }
  }
}
