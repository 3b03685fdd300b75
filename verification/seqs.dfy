/** Counting the elements of a sequence that satisfy a predicate: the model's
    counterpart of a filtered `COUNT(*)` query. */
module Seqs {

  /** Number of elements of `xs` for which `p` holds, counted from the end so
      that appending one row adds at most one. */
  function Count<T>(xs: seq<T>, p: T -> bool): (n: nat)
    ensures n <= |xs|
  {
    if |xs| == 0 then 0
    else Count(xs[..|xs| - 1], p) + (if p(xs[|xs| - 1]) then 1 else 0)
  }

  /** Counting a three-element sequence, one element at a time. */
  lemma CountOfThree<T>(x: T, y: T, z: T, p: T -> bool)
    ensures Count([x, y, z], p) == (if p(x) then 1 else 0) + (if p(y) then 1 else 0) + (if p(z) then 1 else 0)
  {
    CountAppendOne([], x, p);
    CountAppendOne([x], y, p);
    CountAppendOne([x, y], z, p);
    assert [] + [x] == [x] && [x] + [y] == [x, y] && [x, y] + [z] == [x, y, z];
  }

  /** Nothing is counted exactly when no element satisfies `p`. */
  lemma {:induction false} CountZeroIff<T>(xs: seq<T>, p: T -> bool)
    ensures Count(xs, p) == 0 <==> forall i :: 0 <= i < |xs| ==> !p(xs[i])
    decreases |xs|
  {
    if |xs| > 0 {
      var init := xs[..|xs| - 1];
      CountZeroIff(init, p);
      assert forall i :: 0 <= i < |init| ==> init[i] == xs[i];
    }
  }

  /** Indices of `xs` whose element satisfies `p`: an independent definition of
      what `Count` counts. */
  function Matching<T>(xs: seq<T>, p: T -> bool): set<nat>
  {
    set i: nat | i < |xs| && p(xs[i])
  }

  lemma CountAppendOne<T>(xs: seq<T>, x: T, p: T -> bool)
    ensures Count(xs + [x], p) == Count(xs, p) + (if p(x) then 1 else 0)
  {
    assert (xs + [x])[..|xs|] == xs;
  }

  lemma {:induction false} CountAppend<T>(xs: seq<T>, ys: seq<T>, p: T -> bool)
    ensures Count(xs + ys, p) == Count(xs, p) + Count(ys, p)
    decreases |ys|
  {
    if |ys| == 0 {
      assert xs + ys == xs;
    } else {
      var init := ys[..|ys| - 1];
      var last := ys[|ys| - 1];
      assert ys == init + [last];
      assert xs + ys == (xs + init) + [last];
      CountAppend(xs, init, p);
      CountAppendOne(xs + init, last, p);
      CountAppendOne(init, last, p);
    }
  }

  /** Replacing one element changes the count by the difference its old and new
      values make. */
  lemma {:induction false} CountUpdate<T>(xs: seq<T>, i: nat, v: T, p: T -> bool)
    requires i < |xs|
    ensures Count(xs[i := v], p) + (if p(xs[i]) then 1 else 0)
         == Count(xs, p) + (if p(v) then 1 else 0)
    decreases |xs|
  {
    var n := |xs| - 1;
    if i == n {
      assert xs[i := v][..n] == xs[..n];
    } else {
      assert xs[i := v][..n] == xs[..n][i := v];
      CountUpdate(xs[..n], i, v, p);
    }
  }

  /** `Count` agrees with the size of the set of matching indices. */
  lemma {:induction false} CountIsMatchingSize<T>(xs: seq<T>, p: T -> bool)
    ensures Count(xs, p) == |Matching(xs, p)|
    decreases |xs|
  {
    if |xs| > 0 {
      var n := |xs| - 1;
      var init := xs[..n];
      CountIsMatchingSize(init, p);
      if p(xs[n]) {
        assert Matching(xs, p) == Matching(init, p) + {n};
        assert n !in Matching(init, p);
      } else {
        assert Matching(xs, p) == Matching(init, p);
      }
    } else {
      assert Matching(xs, p) == {};
    }
  }

  /** A prefix one longer is the prefix and the next element. */
  lemma PrefixGrows<T>(xs: seq<T>, k: nat)
    requires k < |xs|
    ensures xs[..k + 1] == xs[..k] + [xs[k]]
  {
  }

  /** Overwriting the element just appended is appending the new one. */
  lemma UpdateLast<T>(xs: seq<T>, x: T, y: T)
    ensures (xs + [x])[|xs| := y] == xs + [y]
  {
    assert forall i :: 0 <= i <= |xs| ==> (xs + [x])[|xs| := y][i] == (xs + [y])[i];
  }
}
