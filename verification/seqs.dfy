/**
  `Array.prototype.filter` and the facts about it that the tables rely on:
  the result is an order-preserving sub-list holding exactly the elements
  that pass the test.
 */
module Seqs {

  /** `xs.filter(p)` */
  function Filter<T>(xs: seq<T>, p: T -> bool): (r: seq<T>)
    ensures |r| <= |xs|
    ensures forall k :: 0 <= k < |r| ==> p(r[k])
  {
    if xs == [] then []
    else (if p(xs[0]) then [xs[0]] else []) + Filter(xs[1..], p)
  }

  /** `idx` lists, in strictly increasing order, positions of `xs` that spell out `r`. */
  ghost predicate Embedding<T>(idx: seq<nat>, r: seq<T>, xs: seq<T>)
  {
    && |idx| == |r|
    && (forall k :: 0 <= k < |idx| ==> idx[k] < |xs| && xs[idx[k]] == r[k])
    && (forall k, l :: 0 <= k < l < |idx| ==> idx[k] < idx[l])
  }

  /** `r` is `xs` with some elements left out and the rest kept in order. */
  ghost predicate IsSubsequence<T>(r: seq<T>, xs: seq<T>)
  {
    exists idx :: Embedding(idx, r, xs)
  }

  /** The filtered list is an order-preserving sub-list holding exactly the elements that pass,
      each as many times as it occurs in the input. */
  lemma FilterSpec<T>(xs: seq<T>, p: T -> bool)
    ensures IsSubsequence(Filter(xs, p), xs)
    ensures forall x :: x in Filter(xs, p) <==> x in xs && p(x)
    ensures forall x :: multiset(Filter(xs, p))[x] == if p(x) then multiset(xs)[x] else 0
  {
    var idx := FilterPositions(xs, p);
    FilterMembers(xs, p);
    FilterCount(xs, p);
  }

  /** Every passing element keeps all its occurrences; every failing one loses them all. */
  lemma {:induction false} FilterCount<T>(xs: seq<T>, p: T -> bool)
    ensures forall x :: multiset(Filter(xs, p))[x] == if p(x) then multiset(xs)[x] else 0
  {
    if xs != [] {
      FilterCount(xs[1..], p);
      assert xs == [xs[0]] + xs[1..];
    }
  }

  /** One step of the filter, at position `k`. */
  lemma FilterStep<T>(xs: seq<T>, k: nat, p: T -> bool)
    requires k < |xs|
    ensures Filter(xs[k..], p) == (if p(xs[k]) then [xs[k]] else []) + Filter(xs[k + 1..], p)
  {
    assert xs[k..][1..] == xs[k + 1..];
  }

  lemma {:induction false} FilterMembers<T>(xs: seq<T>, p: T -> bool)
    ensures forall x :: x in Filter(xs, p) <==> x in xs && p(x)
  {
    if xs != [] {
      FilterMembers(xs[1..], p);
      assert Filter(xs, p) == (if p(xs[0]) then [xs[0]] else []) + Filter(xs[1..], p);
      assert xs == [xs[0]] + xs[1..];
    }
  }

  /** The positions the filter keeps, as a witness of the embedding. */
  lemma {:induction false} FilterPositions<T>(xs: seq<T>, p: T -> bool) returns (idx: seq<nat>)
    ensures Embedding(idx, Filter(xs, p), xs)
  {
    if xs == [] {
      idx := [];
    } else {
      var rest := FilterPositions(xs[1..], p);
      var shifted := Shifted(rest, xs[0], Filter(xs[1..], p), xs[1..]);
      assert [xs[0]] + xs[1..] == xs;
      if p(xs[0]) {
        idx := [0] + shifted;
        Prepended(shifted, xs[0], Filter(xs[1..], p), xs[1..]);
      } else {
        idx := shifted;
      }
    }
  }

  /** An embedding into `xs` shifted by one is an embedding into `[x] + xs`. */
  lemma Shifted<T>(idx: seq<nat>, x: T, r: seq<T>, xs: seq<T>) returns (shifted: seq<nat>)
    requires Embedding(idx, r, xs)
    ensures Embedding(shifted, r, [x] + xs)
    ensures |shifted| == |idx| && forall k :: 0 <= k < |idx| ==> shifted[k] == idx[k] + 1
  {
    shifted := seq(|idx|, k requires 0 <= k < |idx| => idx[k] + 1);
    forall k | 0 <= k < |shifted| ensures ([x] + xs)[shifted[k]] == r[k] {
      assert ([x] + xs)[shifted[k]] == xs[idx[k]];
    }
  }

  /** Position 0 put in front of an embedding that avoids it embeds one more element. */
  lemma Prepended<T>(idx: seq<nat>, x: T, r: seq<T>, xs: seq<T>)
    requires Embedding(idx, r, [x] + xs)
    requires forall k :: 0 <= k < |idx| ==> idx[k] >= 1
    ensures Embedding([0] + idx, [x] + r, [x] + xs)
  {
    var full := [0] + idx;
    forall k | 0 <= k < |full| ensures full[k] < |[x] + xs| && ([x] + xs)[full[k]] == ([x] + r)[k] {
      if k > 0 {
        assert full[k] == idx[k - 1] && ([x] + r)[k] == r[k - 1];
      }
    }
    forall k, l | 0 <= k < l < |full| ensures full[k] < full[l] {
      assert full[l] == idx[l - 1];
      if k > 0 {
        assert full[k] == idx[k - 1];
      }
    }
  }

  /** Filtering keeps everything when every element passes. */
  lemma {:induction false} FilterAll<T>(xs: seq<T>, p: T -> bool)
    requires forall k :: 0 <= k < |xs| ==> p(xs[k])
    ensures Filter(xs, p) == xs
  {
    if xs != [] {
      FilterAll(xs[1..], p);
    }
  }

  /** Filtering keeps nothing when no element passes. */
  lemma {:induction false} FilterNone<T>(xs: seq<T>, p: T -> bool)
    requires forall k :: 0 <= k < |xs| ==> !p(xs[k])
    ensures Filter(xs, p) == []
  {
    if xs != [] {
      FilterNone(xs[1..], p);
    }
  }

  /** Two tests that agree on every element of the list filter it alike. */
  lemma {:induction false} FilterCongruent<T>(xs: seq<T>, p: T -> bool, q: T -> bool)
    requires forall k :: 0 <= k < |xs| ==> p(xs[k]) == q(xs[k])
    ensures Filter(xs, p) == Filter(xs, q)
  {
    if xs != [] {
      FilterCongruent(xs[1..], p, q);
    }
  }

  /** No element occurs twice. */
  predicate NoDup<T(==)>(xs: seq<T>)
  {
    forall i, j :: 0 <= i < j < |xs| ==> xs[i] != xs[j]
  }

  /** Filtering a list without duplicates leaves a list without duplicates. */
  lemma {:induction false} FilterNoDup<T>(xs: seq<T>, p: T -> bool)
    requires NoDup(xs)
    ensures NoDup(Filter(xs, p))
  {
    if xs != [] {
      FilterNoDup(xs[1..], p);
      FilterMembers(xs[1..], p);
      assert xs[0] !in xs[1..];
    }
  }

  /** `xs.filter(y => y !== x)`: every occurrence of `x` removed. */
  function RemoveAll<T(==)>(xs: seq<T>, x: T): (r: seq<T>)
  {
    Filter(xs, y => y != x)
  }

  /** RemoveAll leaves out `x` and nothing else, keeps every other element as many times as it
      occurs, keeps the order and keeps a list duplicate-free. */
  lemma RemoveAllSpec<T>(xs: seq<T>, x: T)
    ensures x !in RemoveAll(xs, x)
    ensures forall y :: y != x ==> (y in RemoveAll(xs, x) <==> y in xs)
    ensures forall y :: y != x ==> multiset(RemoveAll(xs, x))[y] == multiset(xs)[y]
    ensures IsSubsequence(RemoveAll(xs, x), xs)
    ensures x !in xs ==> RemoveAll(xs, x) == xs
    ensures NoDup(xs) ==> NoDup(RemoveAll(xs, x))
  {
    FilterSpec(xs, y => y != x);
    if x !in xs {
      FilterAll(xs, y => y != x);
    }
    if NoDup(xs) {
      FilterNoDup(xs, y => y != x);
    }
  }

  /** Filtering a concatenation filters each part. */
  lemma {:induction false} FilterAppend<T>(xs: seq<T>, ys: seq<T>, p: T -> bool)
    ensures Filter(xs + ys, p) == Filter(xs, p) + Filter(ys, p)
  {
    if xs == [] {
      assert xs + ys == ys;
    } else {
      var head := if p(xs[0]) then [xs[0]] else [];
      FilterAppend(xs[1..], ys, p);
      assert (xs + ys)[1..] == xs[1..] + ys;
      assert (xs + ys)[0] == xs[0];
      assert Filter(xs + ys, p) == head + Filter(xs[1..] + ys, p);
      assert Filter(xs, p) == head + Filter(xs[1..], p);
      assert head + (Filter(xs[1..], p) + Filter(ys, p)) == (head + Filter(xs[1..], p)) + Filter(ys, p);
    }
  }

  /** Removing from a concatenation removes from each part. */
  lemma RemoveAllAppend<T>(xs: seq<T>, ys: seq<T>, x: T)
    ensures RemoveAll(xs + ys, x) == RemoveAll(xs, x) + RemoveAll(ys, x)
  {
    FilterAppend(xs, ys, y => y != x);
  }
}
