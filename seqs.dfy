/**
 * Generic sequence combinators the loops of the backend are specified with:
 * a map, a filter that also transforms, and a map whose images are
 * concatenated.
 */
module Seqs {
  import opened Wrappers

  /** `[f(x) for x in xs]` */
  function Map<T, U>(xs: seq<T>, f: T -> U): (r: seq<U>)
    ensures |r| == |xs|
  {
    if xs == [] then [] else Map(xs[..|xs| - 1], f) + [f(xs[|xs| - 1])]
  }

  /** One more element: its image is appended. */
  lemma MapSnoc<T, U>(xs: seq<T>, f: T -> U, i: nat)
    requires i < |xs|
    ensures Map(xs[..i + 1], f) == Map(xs[..i], f) + [f(xs[i])]
  {
    assert xs[..i + 1][..i] == xs[..i];
  }

  /** Appending an element appends its image. */
  lemma MapPush<T, U>(xs: seq<T>, x: T, f: T -> U)
    ensures Map(xs + [x], f) == Map(xs, f) + [f(x)]
  {
    assert (xs + [x])[..|xs|] == xs;
  }

  /** Each element of the map is the image of the element at the same index. */
  lemma {:induction false} MapIndex<T, U>(xs: seq<T>, f: T -> U)
    ensures forall k :: 0 <= k < |xs| ==> Map(xs, f)[k] == f(xs[k])
  {
    if xs != [] {
      var init := xs[..|xs| - 1];
      MapIndex(init, f);
      assert forall k :: 0 <= k < |init| ==> xs[k] == init[k];
    }
  }

  /** `f` either builds an element from an item or skips it; the elements built, in order. */
  function FilterMap<T, U>(xs: seq<T>, f: T -> Option<U>): (r: seq<U>)
    ensures |r| <= |xs|
  {
    if xs == [] then []
    else
      FilterMap(xs[..|xs| - 1], f) + match f(xs[|xs| - 1]) case Some(y) => [y] case None => []
  }

  /** One more element: what `f` builds from it, if anything, is appended. */
  lemma FilterMapSnoc<T, U>(xs: seq<T>, f: T -> Option<U>, i: nat)
    requires i < |xs|
    ensures FilterMap(xs[..i + 1], f) == FilterMap(xs[..i], f) + match f(xs[i]) case Some(y) => [y] case None => []
  {
    assert xs[..i + 1][..i] == xs[..i];
  }

  lemma {:induction false} FilterMapAppend<T, U>(a: seq<T>, b: seq<T>, f: T -> Option<U>)
    ensures FilterMap(a + b, f) == FilterMap(a, f) + FilterMap(b, f)
    decreases |b|
  {
    if b == [] {
      assert a + b == a;
    } else {
      var b' := b[..|b| - 1];
      FilterMapAppend(a, b', f);
      assert (a + b)[..|a + b| - 1] == a + b';
    }
  }

  /** Every entry kept comes from some item, and each entry an item yields is kept. */
  lemma {:induction false} FilterMapMember<T, U>(xs: seq<T>, f: T -> Option<U>, k: nat)
    requires k < |FilterMap(xs, f)|
    ensures exists i :: 0 <= i < |xs| && f(xs[i]) == Some(FilterMap(xs, f)[k])
  {
    var n := |xs| - 1;
    var pre := FilterMap(xs[..n], f);
    if k < |pre| {
      FilterMapMember(xs[..n], f, k);
      var i :| 0 <= i < n && f(xs[..n][i]) == Some(pre[k]);
      assert xs[..n][i] == xs[i];
    } else {
      assert f(xs[n]).Some? && FilterMap(xs, f)[k] == f(xs[n]).value;
    }
  }

  /** `f` applied to each element, the results concatenated in order. */
  function ConcatMap<T, U>(xs: seq<T>, f: T -> seq<U>): seq<U> {
    if xs == [] then []
    else ConcatMap(xs[..|xs| - 1], f) + f(xs[|xs| - 1])
  }

  /** One more element: its image is appended. */
  lemma ConcatMapSnoc<T, U>(xs: seq<T>, f: T -> seq<U>, i: nat)
    requires i < |xs|
    ensures ConcatMap(xs[..i + 1], f) == ConcatMap(xs[..i], f) + f(xs[i])
  {
    assert xs[..i + 1][..i] == xs[..i];
  }

  lemma {:induction false} ConcatMapAppend<T, U>(a: seq<T>, b: seq<T>, f: T -> seq<U>)
    ensures ConcatMap(a + b, f) == ConcatMap(a, f) + ConcatMap(b, f)
    decreases |b|
  {
    if b == [] {
      assert a + b == a;
    } else {
      var b' := b[..|b| - 1];
      ConcatMapAppend(a, b', f);
      assert (a + b)[..|a + b| - 1] == a + b';
    }
  }

  /** Each element of a `ConcatMap` is an element of the image of some element, found at `i` and `m`. */
  lemma {:induction false} ConcatMapMember<T, U>(xs: seq<T>, f: T -> seq<U>, k: nat) returns (i: nat, m: nat)
    requires k < |ConcatMap(xs, f)|
    ensures i < |xs| && m < |f(xs[i])| && ConcatMap(xs, f)[k] == f(xs[i])[m]
  {
    var n := |xs| - 1;
    var pre := ConcatMap(xs[..n], f);
    if k < |pre| {
      i, m := ConcatMapMember(xs[..n], f, k);
      assert xs[..n][i] == xs[i];
    } else {
      i, m := n, k - |pre|;
    }
  }
}
