/** Repeating a step over a list of inputs. */
module Folds {
  /** The state after the first n inputs. */
  function Fold<S, I>(step: (S, I) -> S, s: S, inputs: seq<I>, n: nat): S
    requires n <= |inputs|
  {
    if n == 0 then s else step(Fold(step, s, inputs, n - 1), inputs[n - 1])
  }

  lemma {:induction false} SameFold<S, I>(step: (S, I) -> S, s: S, a: seq<I>, b: seq<I>, n: nat)
    requires n <= |a| && n <= |b| && forall i :: 0 <= i < n ==> a[i] == b[i]
    ensures Fold(step, s, a, n) == Fold(step, s, b, n)
  {
    if n > 0 {
      SameFold(step, s, a, b, n - 1);
    }
  }

  lemma {:induction false} FoldThenSome<S, I>(step: (S, I) -> S, s: S, a: seq<I>, b: seq<I>, n: nat)
    requires n <= |b|
    ensures Fold(step, s, a + b, |a| + n) == Fold(step, Fold(step, s, a, |a|), b, n)
  {
    if n == 0 {
      SameFold(step, s, a + b, a, |a|);
    } else {
      FoldThenSome(step, s, a, b, n - 1);
    }
  }

  lemma FoldThen<S, I>(step: (S, I) -> S, s: S, a: seq<I>, b: seq<I>)
    ensures Fold(step, s, a + b, |a + b|) == Fold(step, Fold(step, s, a, |a|), b, |b|)
  {
    FoldThenSome(step, s, a, b, |b|);
  }

  lemma FoldOne<S, I>(step: (S, I) -> S, s: S, x: I)
    ensures Fold(step, s, [x], 1) == step(s, x)
  {
    assert Fold(step, s, [x], 0) == s;
  }

  lemma FoldTwo<S, I>(step: (S, I) -> S, s: S, x: I, y: I)
    ensures Fold(step, s, [x, y], 2) == step(step(s, x), y)
  {
    assert Fold(step, s, [x, y], 0) == s;
    assert Fold(step, s, [x, y], 1) == step(s, x);
  }

  /** The first n lists of inputs, one after another. */
  function Join<I>(parts: seq<seq<I>>, n: nat): seq<I>
    requires n <= |parts|
  {
    if n == 0 then [] else Join(parts, n - 1) + parts[n - 1]
  }

  /** A chain of states, each reached from the one before by its list of inputs. */
  lemma {:induction false} FoldChain<S, I>(step: (S, I) -> S, states: seq<S>, parts: seq<seq<I>>, n: nat)
    requires |states| == |parts| + 1 && n <= |parts|
    requires forall k :: 0 <= k < |parts| ==> Fold(step, states[k], parts[k], |parts[k]|) == states[k + 1]
    ensures Fold(step, states[0], Join(parts, n), |Join(parts, n)|) == states[n]
  {
    if n > 0 {
      FoldChain(step, states, parts, n - 1);
      FoldThen(step, states[0], Join(parts, n - 1), parts[n - 1]);
    }
  }

  /** What holds at i and passes from each place to the next holds at j. */
  lemma {:induction false} Climb(rungs: seq<bool>, i: nat, j: nat)
    requires i <= j < |rungs| && rungs[i] && forall k :: i < k <= j ==> rungs[k - 1] ==> rungs[k]
    ensures rungs[j]
  {
    if i < j {
      Climb(rungs, i, j - 1);
    }
  }
}
