/** Concatenating the lists computed for each element of a sequence, in order. */
module Seqs {
  function ConcatMap<X, Y>(xs: seq<X>, f: X -> seq<Y>): seq<Y> {
    if xs == [] then [] else ConcatMap(xs[..|xs| - 1], f) + f(xs[|xs| - 1])
  }

  lemma ConcatMapSnoc<X, Y>(xs: seq<X>, x: X, f: X -> seq<Y>)
    ensures ConcatMap(xs + [x], f) == ConcatMap(xs, f) + f(x)
  {
    assert (xs + [x])[..|xs|] == xs;
  }

  lemma ConcatMapSingle<X, Y>(x: X, f: X -> seq<Y>)
    ensures ConcatMap([x], f) == f(x)
  {
    ConcatMapSnoc([], x, f);
    assert [] + [x] == [x];
  }

  lemma ConcatMapPair<X, Y>(x: X, y: X, f: X -> seq<Y>)
    ensures ConcatMap([x, y], f) == f(x) + f(y)
  {
    ConcatMapSingle(x, f);
    ConcatMapSnoc([x], y, f);
    assert [x] + [y] == [x, y];
  }

  /** Extending a prefix by one element extends the concatenation by that element's list. */
  lemma ConcatMapPrefix<X, Y>(xs: seq<X>, j: int, f: X -> seq<Y>)
    requires 0 <= j < |xs|
    ensures ConcatMap(xs[..j + 1], f) == ConcatMap(xs[..j], f) + f(xs[j])
  {
    assert xs[..j + 1][..j] == xs[..j];
  }

  lemma {:induction false} ConcatMapAppend<X, Y>(a: seq<X>, b: seq<X>, f: X -> seq<Y>)
    ensures ConcatMap(a + b, f) == ConcatMap(a, f) + ConcatMap(b, f)
    decreases |b|
  {
    if b == [] {
      assert a + b == a;
    } else {
      var b' := b[..|b| - 1];
      assert (a + b)[..|a + b| - 1] == a + b';
      ConcatMapAppend(a, b', f);
    }
  }

  /** An item is in the concatenation exactly when it is in the list of some element. */
  lemma {:induction false} ConcatMapMembers<X, Y>(xs: seq<X>, f: X -> seq<Y>, t: Y)
    ensures t in ConcatMap(xs, f) <==> exists i :: 0 <= i < |xs| && t in f(xs[i])
  {
    if xs != [] {
      var n := |xs| - 1;
      ConcatMapMembers(xs[..n], f, t);
      if t in ConcatMap(xs[..n], f) {
        var i :| 0 <= i < n && t in f(xs[..n][i]);
        assert xs[..n][i] == xs[i];
      }
      if exists i :: 0 <= i < |xs| && t in f(xs[i]) {
        var i :| 0 <= i < |xs| && t in f(xs[i]);
        if i < n {
          assert xs[..n][i] == xs[i];
        }
      }
    }
  }

  /** Reordering the elements reorders the concatenation: the same items, as often. */
  lemma {:induction false} ConcatMapPermutation<X, Y>(xs: seq<X>, ys: seq<X>, f: X -> seq<Y>)
    requires multiset(xs) == multiset(ys)
    ensures multiset(ConcatMap(xs, f)) == multiset(ConcatMap(ys, f))
    decreases |xs|
  {
    if xs == [] {
      assert |multiset(ys)| == 0;
    } else {
      var n := |xs| - 1;
      var x := xs[n];
      assert xs == xs[..n] + [x];
      assert x in multiset(ys);
      var k :| 0 <= k < |ys| && ys[k] == x;
      var rest := ys[..k] + ys[k + 1..];
      assert ys == ys[..k] + [x] + ys[k + 1..];
      assert multiset(xs) == multiset(xs[..n]) + multiset{x};
      assert multiset(ys) == multiset(ys[..k]) + multiset{x} + multiset(ys[k + 1..]);
      assert multiset(rest) == multiset(ys[..k]) + multiset(ys[k + 1..]);
      assert multiset(xs[..n]) == multiset(xs) - multiset{x};
      assert multiset(rest) == multiset(ys) - multiset{x};
      ConcatMapPermutation(xs[..n], rest, f);
      ConcatMapAppend(ys[..k] + [x], ys[k + 1..], f);
      ConcatMapSnoc(ys[..k], x, f);
      ConcatMapAppend(ys[..k], ys[k + 1..], f);
    }
  }
}
