/**
 * The shape both tag resolvers share: a loop over items that appends, for
 * each item in turn, the strings that item contributes. `Collect` is what
 * such a loop builds; the lemmas here are the facts about order, membership
 * and subsequences that hold whatever an item contributes.
 */
module Collected {

  /** The contributions `f` gives for the items of `xs`, concatenated in item order. */
  function Collect<T>(xs: seq<T>, f: T -> seq<string>): seq<string>
    decreases |xs|
  {
    if xs == [] then [] else Collect(xs[..|xs| - 1], f) + f(xs[|xs| - 1])
  }

  /** Collecting `a + b` is collecting `a`, then collecting `b`. */
  lemma {:induction false} CollectAppend<T>(a: seq<T>, b: seq<T>, f: T -> seq<string>)
    ensures Collect(a + b, f) == Collect(a, f) + Collect(b, f)
    decreases |b|
  {
    if b == [] {
      assert a + b == a;
    } else {
      var b' := b[..|b| - 1];
      assert (a + b)[..|a + b| - 1] == a + b';
      assert (a + b)[|a + b| - 1] == b[|b| - 1];
      CollectAppend(a, b', f);
    }
  }

  /** A string is collected exactly when some item contributes it. */
  lemma {:induction false} CollectMembership<T>(xs: seq<T>, f: T -> seq<string>, t: string)
    ensures t in Collect(xs, f) <==> exists i :: 0 <= i < |xs| && t in f(xs[i])
    decreases |xs|
  {
    if xs != [] {
      var n := |xs| - 1;
      CollectMembership(xs[..n], f, t);
      assert forall i :: 0 <= i < n ==> xs[..n][i] == xs[i];
    }
  }

  /** Items that contribute nothing collect nothing. */
  lemma CollectNothing<T>(xs: seq<T>, f: T -> seq<string>)
    requires forall i :: 0 <= i < |xs| ==> f(xs[i]) == []
    ensures Collect(xs, f) == []
  {
    var c := Collect(xs, f);
    if c != [] {
      CollectMembership(xs, f, c[0]);
    }
  }

  /** Two contributions that agree on every item collect the same strings. */
  lemma {:induction false} CollectAgree<T>(xs: seq<T>, f: T -> seq<string>, g: T -> seq<string>)
    requires forall i :: 0 <= i < |xs| ==> f(xs[i]) == g(xs[i])
    ensures Collect(xs, f) == Collect(xs, g)
    decreases |xs|
  {
    if xs != [] {
      var n := |xs| - 1;
      assert forall i :: 0 <= i < n ==> xs[..n][i] == xs[i];
      CollectAgree(xs[..n], f, g);
    }
  }

  /** The elements of `b` that `keep` marks, in order. */
  function Kept(b: seq<string>, keep: seq<bool>): seq<string>
    requires |keep| == |b|
    decreases |b|
  {
    if b == [] then []
    else Kept(b[..|b| - 1], keep[..|b| - 1]) + (if keep[|b| - 1] then [b[|b| - 1]] else [])
  }

  /** `a` is `b` with some elements dropped and the rest in their order. */
  ghost predicate IsSubsequence(a: seq<string>, b: seq<string>) {
    exists keep: seq<bool> :: |keep| == |b| && a == Kept(b, keep)
  }

  lemma {:induction false} KeptAppend(b1: seq<string>, k1: seq<bool>, b2: seq<string>, k2: seq<bool>)
    requires |k1| == |b1| && |k2| == |b2|
    ensures Kept(b1 + b2, k1 + k2) == Kept(b1, k1) + Kept(b2, k2)
    decreases |b2|
  {
    if b2 == [] {
      assert b1 + b2 == b1 && k1 + k2 == k1;
    } else {
      var n := |b2| - 1;
      assert (b1 + b2)[..|b1| + n] == b1 + b2[..n];
      assert (k1 + k2)[..|k1| + n] == k1 + k2[..n];
      KeptAppend(b1, k1, b2[..n], k2[..n]);
    }
  }

  lemma {:induction false} KeptAll(b: seq<string>, keep: seq<bool>, all: bool)
    requires |keep| == |b| && forall k :: 0 <= k < |keep| ==> keep[k] == all
    ensures Kept(b, keep) == if all then b else []
    decreases |b|
  {
    if b != [] {
      KeptAll(b[..|b| - 1], keep[..|b| - 1], all);
    }
  }

  /** Subsequences concatenate. */
  lemma SubsequenceConcat(a1: seq<string>, b1: seq<string>, a2: seq<string>, b2: seq<string>)
    requires IsSubsequence(a1, b1) && IsSubsequence(a2, b2)
    ensures IsSubsequence(a1 + a2, b1 + b2)
  {
    var k1 :| |k1| == |b1| && a1 == Kept(b1, k1);
    var k2 :| |k2| == |b2| && a2 == Kept(b2, k2);
    KeptAppend(b1, k1, b2, k2);
  }

  /** Dropping nothing, or everything, gives a subsequence. */
  lemma SubsequenceOfItselfOrEmpty(b: seq<string>)
    ensures IsSubsequence(b, b) && IsSubsequence([], b)
  {
    KeptAll(b, seq(|b|, _ => true), true);
    KeptAll(b, seq(|b|, _ => false), false);
  }

  /** When every item contributes a subsequence of what it contributes under `g`, the collected strings are a subsequence too. */
  lemma {:induction false} CollectSubsequence<T>(xs: seq<T>, f: T -> seq<string>, g: T -> seq<string>)
    requires forall i :: 0 <= i < |xs| ==> IsSubsequence(f(xs[i]), g(xs[i]))
    ensures IsSubsequence(Collect(xs, f), Collect(xs, g))
    decreases |xs|
  {
    if xs == [] {
      SubsequenceOfItselfOrEmpty([]);
    } else {
      var n := |xs| - 1;
      assert forall i :: 0 <= i < n ==> xs[..n][i] == xs[i];
      CollectSubsequence(xs[..n], f, g);
      SubsequenceConcat(Collect(xs[..n], f), Collect(xs[..n], g), f(xs[n]), g(xs[n]));
    }
  }
}
