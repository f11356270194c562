/**
 * The two array combinators the application is written with:
 * `Array.prototype.filter` and `Array.prototype.reduce` summing a numeric
 * projection from 0. Both are defined on the last element, so they unfold
 * the same way a left-to-right loop accumulates.
 */
module Seqs {

  /** `s.filter(p)`: the elements satisfying `p`, in their original order. */
  function Filter<T(!new)>(s: seq<T>, p: T -> bool): (r: seq<T>)
    ensures |r| <= |s|
    ensures forall x :: x in r <==> x in s && p(x)
  {
    if s == [] then []
    else Filter(s[..|s| - 1], p) + (if p(s[|s| - 1]) then [s[|s| - 1]] else [])
  }

  /** `s.reduce((acc, x) => acc + f(x), 0)`. */
  function SumOf<T>(s: seq<T>, f: T -> real): real
  {
    if s == [] then 0.0 else SumOf(s[..|s| - 1], f) + f(s[|s| - 1])
  }

  /** Filtering a concatenation filters each part: the order of the kept elements is the order in `s`. */
  lemma {:induction false} FilterConcat<T(!new)>(a: seq<T>, b: seq<T>, p: T -> bool)
    ensures Filter(a + b, p) == Filter(a, p) + Filter(b, p)
  {
    if b == [] {
      assert a + b == a;
    } else {
      var b' := b[..|b| - 1];
      assert (a + b)[..|a + b| - 1] == a + b';
      FilterConcat(a, b', p);
    }
  }

  /** Filtering keeps a sequence whose elements all pass unchanged. */
  lemma {:induction false} FilterAllPass<T(!new)>(s: seq<T>, p: T -> bool)
    requires forall x :: x in s ==> p(x)
    ensures Filter(s, p) == s
  {
    if s != [] {
      var s', x := s[..|s| - 1], s[|s| - 1];
      assert s == s' + [x];
      FilterAllPass(s', p);
    }
  }

  /** The kept and the dropped elements together are as many as the input. */
  lemma {:induction false} FilterPartitionLength<T(!new)>(s: seq<T>, p: T -> bool, q: T -> bool)
    requires forall x :: q(x) == !p(x)
    ensures |Filter(s, p)| + |Filter(s, q)| == |s|
  {
    if s != [] {
      FilterPartitionLength(s[..|s| - 1], p, q);
    }
  }

  /** The sum over a concatenation is the sum of the sums. */
  lemma {:induction false} SumOfConcat<T>(a: seq<T>, b: seq<T>, f: T -> real)
    ensures SumOf(a + b, f) == SumOf(a, f) + SumOf(b, f)
  {
    if b == [] {
      assert a + b == a;
    } else {
      var b' := b[..|b| - 1];
      assert (a + b)[..|a + b| - 1] == a + b';
      SumOfConcat(a, b', f);
    }
  }

  /** Splitting by a predicate and its negation splits the sum. */
  lemma {:induction false} SumOfPartition<T(!new)>(s: seq<T>, f: T -> real, p: T -> bool, q: T -> bool)
    requires forall x :: q(x) == !p(x)
    ensures SumOf(s, f) == SumOf(Filter(s, p), f) + SumOf(Filter(s, q), f)
  {
    if s != [] {
      var s', x := s[..|s| - 1], s[|s| - 1];
      SumOfPartition(s', f, p, q);
      if p(x) {
        assert Filter(s, p) == Filter(s', p) + [x];
        assert Filter(s, q) == Filter(s', q);
        SumOfConcat(Filter(s', p), [x], f);
      } else {
        assert Filter(s, p) == Filter(s', p);
        assert Filter(s, q) == Filter(s', q) + [x];
        SumOfConcat(Filter(s', q), [x], f);
      }
    }
  }

  /** Summing a pointwise difference is the difference of the sums. */
  lemma {:induction false} SumOfDifference<T>(s: seq<T>, f: T -> real, g: T -> real, h: T -> real)
    requires forall x :: h(x) == f(x) - g(x)
    ensures SumOf(s, h) == SumOf(s, f) - SumOf(s, g)
  {
    if s != [] {
      SumOfDifference(s[..|s| - 1], f, g, h);
    }
  }
}
