/**
 * Accumulating a list by appending each element's contribution in turn: the
 * shape of every `for x in xs: out.extend(f(x))` loop in the fare search.
 */
module Sequences {

  /** The concatenation of `f(x)` over `s`, in order. */
  function FlatMap<A, B>(s: seq<A>, f: A -> seq<B>): seq<B>
  {
    if s == [] then [] else FlatMap(s[..|s| - 1], f) + f(s[|s| - 1])
  }

  /** One more element adds exactly its own contribution at the end. */
  lemma FlatMapSnoc<A, B>(s: seq<A>, x: A, f: A -> seq<B>)
    ensures FlatMap(s + [x], f) == FlatMap(s, f) + f(x)
  {
    assert (s + [x])[..|s|] == s;
  }

  /** Accumulating over two parts is accumulating over each: one part cannot disturb the other. */
  lemma {:induction false} FlatMapAppend<A, B>(a: seq<A>, b: seq<A>, f: A -> seq<B>)
    ensures FlatMap(a + b, f) == FlatMap(a, f) + FlatMap(b, f)
    decreases |b|
  {
    if b == [] {
      assert a + b == a;
    } else {
      var front := b[..|b| - 1];
      assert a + b == (a + front) + [b[|b| - 1]];
      FlatMapSnoc(a + front, b[|b| - 1], f);
      FlatMapAppend(a, front, f);
      FlatMapSnoc(front, b[|b| - 1], f);
      assert front + [b[|b| - 1]] == b;
    }
  }

  /** The contribution of an element sits between those of the elements before it and after it. */
  lemma FlatMapSplit<A, B>(a: seq<A>, x: A, b: seq<A>, f: A -> seq<B>)
    ensures FlatMap(a + [x] + b, f) == FlatMap(a, f) + f(x) + FlatMap(b, f)
  {
    FlatMapAppend(a + [x], b, f);
    FlatMapSnoc(a, x, f);
  }

  /** Every element of the result comes from the contribution of some element of `s`. */
  lemma {:induction false} FlatMapMember<A, B>(s: seq<A>, f: A -> seq<B>, y: B)
    requires y in FlatMap(s, f)
    ensures exists k :: 0 <= k < |s| && y in f(s[k])
    decreases |s|
  {
    var front := s[..|s| - 1];
    if y in FlatMap(front, f) {
      FlatMapMember(front, f, y);
      var k :| 0 <= k < |front| && y in f(front[k]);
      assert s[k] == front[k];
    } else {
      assert y in f(s[|s| - 1]);
    }
  }

  /** Every contribution appears in the result. */
  lemma {:induction false} FlatMapContains<A, B>(s: seq<A>, f: A -> seq<B>, k: nat, y: B)
    requires k < |s| && y in f(s[k])
    ensures y in FlatMap(s, f)
    decreases |s|
  {
    if k < |s| - 1 {
      assert s[..|s| - 1][k] == s[k];
      FlatMapContains(s[..|s| - 1], f, k, y);
    }
  }

  /** When no element contributes anything, the result is empty. */
  lemma {:induction false} FlatMapEmpty<A, B>(s: seq<A>, f: A -> seq<B>)
    requires forall k :: 0 <= k < |s| ==> f(s[k]) == []
    ensures FlatMap(s, f) == []
    decreases |s|
  {
    if s != [] {
      FlatMapEmpty(s[..|s| - 1], f);
    }
  }

  /** When every element contributes at most one item, the result is no longer than the input. */
  lemma {:induction false} FlatMapAtMostOne<A, B>(s: seq<A>, f: A -> seq<B>)
    requires forall k :: 0 <= k < |s| ==> |f(s[k])| <= 1
    ensures |FlatMap(s, f)| <= |s|
    decreases |s|
  {
    if s != [] {
      FlatMapAtMostOne(s[..|s| - 1], f);
    }
  }

  /** When every element contributes exactly `n` items, the result has `n` items per element. */
  lemma {:induction false} FlatMapUniform<A, B>(s: seq<A>, f: A -> seq<B>, n: nat)
    requires forall k :: 0 <= k < |s| ==> |f(s[k])| == n
    ensures |FlatMap(s, f)| == |s| * n
    decreases |s|
  {
    if s != [] {
      var front := s[..|s| - 1];
      FlatMapUniform(front, f, n);
      assert |FlatMap(s, f)| == |FlatMap(front, f)| + n;
      MulSucc(|front|, n);
    }
  }

  /** `(a + 1)·n = a·n + n`. */
  lemma MulSucc(a: int, n: int)
    ensures a * n + n == (a + 1) * n
  {
  }
}
