/** `Array.prototype.filter` and the subsequence order it respects. */
module Seqs {

  /** The elements of `s` that satisfy `p`, in their original order. */
  function Filter<T>(s: seq<T>, p: T -> bool): (r: seq<T>)
    ensures |r| <= |s|
    ensures forall i :: 0 <= i < |r| ==> p(r[i])
  {
    if s == [] then []
    else if p(s[0]) then [s[0]] + Filter(s[1..], p)
    else Filter(s[1..], p)
  }

  /** An element survives filtering exactly when it occurs in `s` and satisfies `p`. */
  lemma {:induction false} FilterMembers<T>(s: seq<T>, p: T -> bool, x: T)
    ensures x in Filter(s, p) <==> x in s && p(x)
  {
    if s != [] {
      FilterMembers(s[1..], p, x);
      assert s == [s[0]] + s[1..];
    }
  }

  /** Filtering keeps every occurrence of an element that passes and none of one that
      fails. */
  lemma {:induction false} FilterCount<T>(s: seq<T>, p: T -> bool, x: T)
    ensures multiset(Filter(s, p))[x] == if p(x) then multiset(s)[x] else 0
  {
    if s != [] {
      FilterCount(s[1..], p, x);
      assert s == [s[0]] + s[1..];
      assert multiset(s) == multiset([s[0]]) + multiset(s[1..]);
      if p(s[0]) {
        assert multiset(Filter(s, p)) == multiset([s[0]]) + multiset(Filter(s[1..], p));
      }
    }
  }

  /** `a` can be obtained from `b` by deleting elements, keeping the order of the rest. */
  ghost predicate IsSubsequence<T>(a: seq<T>, b: seq<T>) {
    if a == [] then true
    else if b == [] then false
    else (a[0] == b[0] && IsSubsequence(a[1..], b[1..])) || IsSubsequence(a, b[1..])
  }

  /** Filtering keeps the relative order of the surviving elements. */
  lemma {:induction false} FilterIsSubsequence<T(!new)>(s: seq<T>, p: T -> bool)
    ensures IsSubsequence(Filter(s, p), s)
  {
    if s != [] {
      FilterIsSubsequence(s[1..], p);
      var rest := Filter(s[1..], p);
      if p(s[0]) {
        assert Filter(s, p) == [s[0]] + rest;
        assert ([s[0]] + rest)[1..] == rest;
      } else {
        SubsequenceOfTail(rest, s);
      }
    }
  }

  /** A subsequence of the tail of `b` is a subsequence of `b`. */
  lemma SubsequenceOfTail<T>(a: seq<T>, b: seq<T>)
    requires b != [] && IsSubsequence(a, b[1..])
    ensures IsSubsequence(a, b)
  {
  }

  /** When every element passes, filtering changes nothing. */
  lemma {:induction false} FilterAllPass<T(!new)>(s: seq<T>, p: T -> bool)
    requires forall i :: 0 <= i < |s| ==> p(s[i])
    ensures Filter(s, p) == s
  {
    if s != [] {
      FilterAllPass(s[1..], p);
      assert [s[0]] + s[1..] == s;
    }
  }

  /** Filtering distributes over concatenation. */
  lemma {:induction false} FilterConcat<T(!new)>(a: seq<T>, b: seq<T>, p: T -> bool)
    ensures Filter(a + b, p) == Filter(a, p) + Filter(b, p)
  {
    if a == [] {
      assert a + b == b;
    } else {
      assert (a + b)[0] == a[0];
      assert (a + b)[1..] == a[1..] + b;
      FilterConcat(a[1..], b, p);
    }
  }

  /** The concatenation of `f` applied to every element, in order. */
  function FlatMap<T, U>(xs: seq<T>, f: T -> seq<U>): seq<U> {
    if xs == [] then [] else FlatMap(xs[..|xs| - 1], f) + f(xs[|xs| - 1])
  }

  /** Mapping a concatenation maps each part. */
  lemma {:induction false} FlatMapConcat<T, U>(a: seq<T>, b: seq<T>, f: T -> seq<U>)
    ensures FlatMap(a + b, f) == FlatMap(a, f) + FlatMap(b, f)
  {
    if b == [] {
      assert a + b == a;
    } else {
      FlatMapConcat(a, b[..|b| - 1], f);
      assert (a + b)[..|a + b| - 1] == a + b[..|b| - 1];
    }
  }

  /** Like `FlatMap`, with each element also given its position counted from `first`
      (the `index + 1` of a `forEach` that numbers from one). */
  function FlatMapNumbered<T, U>(xs: seq<T>, first: int, f: (T, int) -> seq<U>): seq<U> {
    if xs == [] then [] else FlatMapNumbered(xs[..|xs| - 1], first, f) + f(xs[|xs| - 1], first + |xs| - 1)
  }

  /** Mapping a concatenation maps each part, the second numbered on from the first. */
  lemma {:induction false} FlatMapNumberedConcat<T, U>(a: seq<T>, b: seq<T>, first: int, f: (T, int) -> seq<U>)
    ensures FlatMapNumbered(a + b, first, f) == FlatMapNumbered(a, first, f) + FlatMapNumbered(b, first + |a|, f)
  {
    if b == [] {
      assert a + b == a;
    } else {
      FlatMapNumberedConcat(a, b[..|b| - 1], first, f);
      assert (a + b)[..|a + b| - 1] == a + b[..|b| - 1];
    }
  }

  /** Element `k` contributes its block, numbered `first + k`, between the blocks of the
      elements before it and those after it. */
  lemma FlatMapNumberedAt<T, U>(xs: seq<T>, first: int, k: int, f: (T, int) -> seq<U>)
    requires 0 <= k < |xs|
    ensures FlatMapNumbered(xs, first, f)
         == FlatMapNumbered(xs[..k], first, f) + f(xs[k], first + k) + FlatMapNumbered(xs[k + 1..], first + k + 1, f)
  {
    var pre, mid, post := xs[..k], [xs[k]], xs[k + 1..];
    assert xs == pre + (mid + post);
    FlatMapNumberedConcat(pre, mid + post, first, f);
    FlatMapNumberedConcat(mid, post, first + k, f);
    assert FlatMapNumbered(mid, first + k, f) == f(xs[k], first + k) by {
      assert mid[..0] == [];
    }
    ConcatAssoc3(FlatMapNumbered(pre, first, f), f(xs[k], first + k), FlatMapNumbered(post, first + k + 1, f));
  }

  /** When no element passes, filtering leaves nothing. */
  lemma {:induction false} FilterNonePass<T>(s: seq<T>, p: T -> bool)
    requires forall x :: x in s ==> !p(x)
    ensures Filter(s, p) == []
  {
    if s != [] {
      assert forall x :: x in s[1..] ==> x in s;
      FilterNonePass(s[1..], p);
    }
  }

  /** When the block of every element, numbered from `first`, keeps exactly one element
      under `p`, the filtered concatenation holds those elements in order, one per block. */
  lemma {:induction false} FilterFlatMapNumbered<T, U(!new)>(xs: seq<T>, first: int, f: (T, int) -> seq<U>,
                                                             p: U -> bool, g: (T, int) -> U)
    requires forall k :: 0 <= k < |xs| ==> Filter(f(xs[k], first + k), p) == [g(xs[k], first + k)]
    ensures |Filter(FlatMapNumbered(xs, first, f), p)| == |xs|
    ensures forall k :: 0 <= k < |xs| ==> Filter(FlatMapNumbered(xs, first, f), p)[k] == g(xs[k], first + k)
  {
    if xs != [] {
      var init, last := xs[..|xs| - 1], xs[|xs| - 1];
      FilterFlatMapNumbered(init, first, f, p, g);
      FilterConcat(FlatMapNumbered(init, first, f), f(last, first + |init|), p);
      var all, before := Filter(FlatMapNumbered(xs, first, f), p), Filter(FlatMapNumbered(init, first, f), p);
      assert all == before + [g(last, first + |init|)];
      forall k | 0 <= k < |init| ensures all[k] == g(xs[k], first + k) {
        assert all[k] == before[k];
        assert xs[k] == init[k];
      }
    }
  }

  /** Extending a prefix of `xs` by one element appends that element's block, numbered
      after the prefix, also behind any fixed `before`. */
  lemma FlatMapNumberedPrefix<T, U>(before: seq<U>, xs: seq<T>, k: int, first: int, f: (T, int) -> seq<U>)
    requires 0 <= k < |xs|
    ensures before + FlatMapNumbered(xs[..k + 1], first, f) == (before + FlatMapNumbered(xs[..k], first, f)) + f(xs[k], first + k)
  {
    assert xs[..k + 1][..k] == xs[..k];
  }

  /** A one-element sequence when `present`, otherwise empty. */
  function Optional<T>(present: bool, x: T): seq<T> {
    if present then [x] else []
  }

  /** Appending an optional element appends its block exactly when it is present. */
  lemma FlatMapAppendOptional<T, U>(xs: seq<T>, present: bool, x: T, f: T -> seq<U>)
    ensures FlatMap(xs + Optional(present, x), f) == FlatMap(xs, f) + (if present then f(x) else [])
  {
    if present {
      assert (xs + [x])[..|xs|] == xs;
    } else {
      assert xs + Optional(present, x) == xs;
    }
  }

  /** Concatenation regrouped to the right. */
  lemma ConcatAssoc<T>(a: seq<T>, b: seq<T>, c: seq<T>, d: seq<T>)
    ensures a + b + c + d == a + (b + c + d)
  {
  }

  /** When every block satisfies `p` throughout, so does their concatenation. */
  lemma {:induction false} FlatMapNumberedAll<T, U>(xs: seq<T>, first: int, f: (T, int) -> seq<U>, p: U -> bool)
    requires forall k :: 0 <= k < |xs| ==> forall y :: y in f(xs[k], first + k) ==> p(y)
    ensures forall y :: y in FlatMapNumbered(xs, first, f) ==> p(y)
  {
    if xs != [] {
      var init := xs[..|xs| - 1];
      assert forall k :: 0 <= k < |init| ==> init[k] == xs[k];
      FlatMapNumberedAll(init, first, f, p);
    }
  }

  /** The last element contributes the last block. */
  lemma FlatMapNumberedSnoc<T, U>(xs: seq<T>, first: int, f: (T, int) -> seq<U>)
    requires xs != []
    ensures FlatMapNumbered(xs, first, f)
         == FlatMapNumbered(xs[..|xs| - 1], first, f) + f(xs[|xs| - 1], first + |xs| - 1)
  {
  }

  /** Concatenation regrouped to the left. */
  lemma ConcatAssoc3<T>(a: seq<T>, b: seq<T>, c: seq<T>)
    ensures a + (b + c) == a + b + c
  {
  }

  /** A single element contributes just its block. */
  lemma FlatMapSingle<T, U>(x: T, f: T -> seq<U>)
    ensures FlatMap([x], f) == f(x)
  {
    assert [x][..0] == [];
    assert [] + f(x) == f(x);
  }

  /** The sum of the weights of the elements, folded from the left like `reduce`. */
  function SumOf<T>(xs: seq<T>, w: T -> real): real {
    if xs == [] then 0.0 else SumOf(xs[..|xs| - 1], w) + w(xs[|xs| - 1])
  }

  /** A measure `s` that adds up over concatenation, applied to the numbered blocks of
      `xs`, is the sum of the per-element weights `w` that each block measures. */
  lemma {:induction false} FlatMapNumberedSum<T, U>(xs: seq<T>, first: int, f: (T, int) -> seq<U>,
                                                    s: seq<U> -> real, w: T -> real)
    requires s([]) == 0.0
    requires forall x: seq<U>, y: seq<U> :: s(x + y) == s(x) + s(y)
    requires forall k :: 0 <= k < |xs| ==> s(f(xs[k], first + k)) == w(xs[k])
    ensures s(FlatMapNumbered(xs, first, f)) == SumOf(xs, w)
  {
    if xs != [] {
      var init := xs[..|xs| - 1];
      assert forall k :: 0 <= k < |init| ==> init[k] == xs[k];
      FlatMapNumberedSum(init, first, f, s, w);
      var front, last := FlatMapNumbered(init, first, f), f(xs[|xs| - 1], first + |xs| - 1);
      assert FlatMapNumbered(xs, first, f) == front + last;
      AdditiveAt(s, front, last);
    }
  }

  /** An additive measure, at one particular pair of sequences. */
  lemma AdditiveAt<U>(s: seq<U> -> real, a: seq<U>, b: seq<U>)
    requires forall x: seq<U>, y: seq<U> :: s(x + y) == s(x) + s(y)
    ensures s(a + b) == s(a) + s(b)
  {
  }

  /** The numbered blocks concatenate to nothing exactly when every block is empty. */
  lemma {:induction false} FlatMapNumberedEmpty<T, U>(xs: seq<T>, first: int, f: (T, int) -> seq<U>)
    ensures FlatMapNumbered(xs, first, f) == [] <==> forall k :: 0 <= k < |xs| ==> f(xs[k], first + k) == []
  {
    if xs != [] {
      var init := xs[..|xs| - 1];
      FlatMapNumberedEmpty(init, first, f);
      assert forall k :: 0 <= k < |init| ==> init[k] == xs[k];
    }
  }
}
