/**
 * Left folds over a feed, the shape of every loader loop: the state after
 * items `xs` is the step applied to the state after all but the last.
 */
module Folds {
  function FoldL<S, X>(step: (S, X) -> S, s: S, xs: seq<X>): S
    decreases |xs|
  {
    if xs == [] then s else step(FoldL(step, s, xs[..|xs| - 1]), xs[|xs| - 1])
  }

  lemma FoldLast<S, X>(step: (S, X) -> S, s: S, xs: seq<X>, i: nat)
    requires i < |xs|
    ensures FoldL(step, s, xs[..i + 1]) == step(FoldL(step, s, xs[..i]), xs[i])
  {
    assert xs[..i + 1][..i] == xs[..i];
  }

  lemma {:induction false} FoldConcat<S, X>(step: (S, X) -> S, s: S, a: seq<X>, b: seq<X>)
    ensures FoldL(step, s, a + b) == FoldL(step, FoldL(step, s, a), b)
    decreases |b|
  {
    if b == [] {
      assert a + b == a;
    } else {
      var b' := b[..|b| - 1];
      FoldConcat(step, s, a, b');
      assert (a + b)[..|a + b| - 1] == a + b';
    }
  }

  /** An item the step ignores can be deleted from the feed. */
  lemma FoldSkip<S, X>(step: (S, X) -> S, s: S, a: seq<X>, x: X, b: seq<X>)
    requires forall t :: step(t, x) == t
    ensures FoldL(step, s, a + [x] + b) == FoldL(step, s, a + b)
  {
    FoldConcat(step, s, a + [x], b);
    FoldConcat(step, s, a, b);
    assert (a + [x])[..|a + [x]| - 1] == a;
  }

  /** A property every step keeps holds after the whole feed. */
  lemma {:induction false} FoldKeeps<S, X>(step: (S, X) -> S, inv: S -> bool, s: S, xs: seq<X>)
    requires inv(s)
    requires forall t, x :: inv(t) ==> inv(step(t, x))
    ensures inv(FoldL(step, s, xs))
    decreases |xs|
  {
    if xs != [] {
      FoldKeeps(step, inv, s, xs[..|xs| - 1]);
    }
  }

  /**
   * Two folds over the same feed, started in related states, end in related
   * states when each pair of steps on an admitted item keeps the relation.
   */
  lemma {:induction false} FoldAgree<S, T, X>(f: (S, X) -> S, g: (T, X) -> T, rel: (S, T) -> bool, admit: X -> bool,
                                             s: S, t: T, xs: seq<X>)
    requires rel(s, t)
    requires forall x :: x in xs ==> admit(x)
    requires forall a, b, x :: rel(a, b) && admit(x) ==> rel(f(a, x), g(b, x))
    ensures rel(FoldL(f, s, xs), FoldL(g, t, xs))
    decreases |xs|
  {
    if xs != [] {
      var init := xs[..|xs| - 1];
      forall x | x in init ensures admit(x) {
        assert x in xs;
      }
      FoldAgree(f, g, rel, admit, s, t, init);
      assert admit(xs[|xs| - 1]);
    }
  }

  /**
   * When each step settles its own item and never unsettles another, every
   * item of the feed is settled afterwards.
   */
  lemma {:induction false} FoldSettles<S, X>(step: (S, X) -> S, settled: (S, X) -> bool, s: S, xs: seq<X>)
    requires forall t, x :: settled(step(t, x), x)
    requires forall t, x, y :: settled(t, y) ==> settled(step(t, x), y)
    ensures forall y :: y in xs ==> settled(FoldL(step, s, xs), y)
    decreases |xs|
  {
    if xs != [] {
      var init := xs[..|xs| - 1];
      FoldSettles(step, settled, s, init);
      forall y | y in xs
        ensures settled(FoldL(step, s, xs), y)
      {
        if y != xs[|xs| - 1] {
          assert y in init;
        }
      }
    }
  }

  /** A feed whose every item is settled, on a step that ignores settled items, changes nothing. */
  lemma {:induction false} FoldSettled<S, X>(step: (S, X) -> S, settled: (S, X) -> bool, s: S, xs: seq<X>)
    requires forall x :: x in xs ==> settled(s, x)
    requires forall t, x :: settled(t, x) ==> step(t, x) == t
    ensures FoldL(step, s, xs) == s
    decreases |xs|
  {
    if xs != [] {
      FoldSettled(step, settled, s, xs[..|xs| - 1]);
    }
  }

  /**
   * The longest prefix of `xs` with no item satisfying `stop`: what a loop
   * that breaks at the first such item processes.
   */
  function UntilFirst<X>(xs: seq<X>, stop: X -> bool): (r: seq<X>)
    ensures |r| <= |xs| && r == xs[..|r|]
    ensures forall i :: 0 <= i < |r| ==> !stop(xs[i])
    ensures |r| < |xs| ==> stop(xs[|r|])
    decreases |xs|
  {
    if xs == [] then []
    else if stop(xs[0]) then []
    else
      var rest := UntilFirst(xs[1..], stop);
      assert forall i :: 1 <= i <= |rest| ==> xs[i] == xs[1..][i - 1];
      [xs[0]] + rest
  }

  /** A loop that saw no stopping item before position `i`, and stops at `i` or ran out, processed `xs[..i]`. */
  lemma UntilFirstAt<X>(xs: seq<X>, stop: X -> bool, i: nat)
    requires i <= |xs| && (forall j :: 0 <= j < i ==> !stop(xs[j])) && (i < |xs| ==> stop(xs[i]))
    ensures UntilFirst(xs, stop) == xs[..i]
  {
  }

  /** Nothing after the first stopping item matters. */
  lemma UntilFirstCut<X>(a: seq<X>, x: X, b: seq<X>, stop: X -> bool)
    requires stop(x)
    ensures UntilFirst(a + [x] + b, stop) == UntilFirst(a + [x], stop)
    ensures |UntilFirst(a + [x], stop)| <= |a|
    ensures UntilFirst(a + [x] + b, stop) == UntilFirst(a, stop)
  {
    var n := |UntilFirst(a + [x] + b, stop)|;
    assert (a + [x] + b)[|a|] == x;
    assert forall j :: 0 <= j <= |a| ==> (a + [x] + b)[j] == (a + [x])[j];
    UntilFirstAt(a + [x], stop, n);
    assert forall j :: 0 <= j < |a| ==> (a + [x])[j] == a[j];
    UntilFirstAt(a, stop, n);
  }

  /** `order` lists the entries of `m`, each key once: a query's rows in some order. */
  predicate Enumerates<K(==), V(==)>(order: seq<(K, V)>, m: map<K, V>) {
    && (forall i :: 0 <= i < |order| ==> order[i].0 in m && m[order[i].0] == order[i].1)
    && (forall i, j :: 0 <= i < j < |order| ==> order[i].0 != order[j].0)
    && (forall k :: k in m ==> exists i :: 0 <= i < |order| && order[i].0 == k)
  }
}
