/** Runs of a transition system, and the two ways this project reasons about all of them: an
    invariant of every reachable state, and a relation between an earlier and a later state. */
module Runs {

  /** The state after a sequence of actions. */
  function Run<S, A>(step: (S, A) -> S, s: S, actions: seq<A>): S
    decreases |actions|
  {
    if actions == [] then s
    else step(Run(step, s, actions[..|actions| - 1]), actions[|actions| - 1])
  }

  lemma {:induction false} RunConcat<S, A>(step: (S, A) -> S, s: S, before: seq<A>, after: seq<A>)
    ensures Run(step, s, before + after) == Run(step, Run(step, s, before), after)
    decreases |after|
  {
    var all := before + after;
    if after == [] {
      assert all == before;
    } else {
      RunConcat(step, s, before, after[..|after| - 1]);
      assert all[..|all| - 1] == before + after[..|after| - 1];
    }
  }

  lemma RunCons<S, A>(step: (S, A) -> S, s: S, first: A, rest: seq<A>)
    ensures Run(step, s, [first] + rest) == Run(step, step(s, first), rest)
  {
    RunConcat(step, s, [first], rest);
    assert [first][..0] == [];
  }

  lemma RunSnoc<S, A>(step: (S, A) -> S, s: S, actions: seq<A>, last: A)
    ensures Run(step, s, actions + [last]) == step(Run(step, s, actions), last)
  {
    assert (actions + [last])[..|actions|] == actions;
  }

  lemma {:induction false} InvariantOfRun<S(!new), A(!new)>(
    step: (S, A) -> S, inv: S -> bool, s: S, actions: seq<A>)
    requires inv(s)
    requires forall x, a :: inv(x) ==> inv(step(x, a))
    ensures inv(Run(step, s, actions))
    decreases |actions|
  {
    if actions != [] {
      InvariantOfRun(step, inv, s, actions[..|actions| - 1]);
    }
  }

  /** A reflexive, transitive relation that every step from a good state respects relates the
      first state of a run to the last. */
  lemma {:induction false} RelationOfRun<S(!new), A(!new)>(
    step: (S, A) -> S, inv: S -> bool, rel: (S, S) -> bool, s: S, actions: seq<A>)
    requires inv(s)
    requires forall x, a :: inv(x) ==> inv(step(x, a)) && rel(x, step(x, a))
    requires forall x :: rel(x, x)
    requires forall x, y, z :: rel(x, y) && rel(y, z) ==> rel(x, z)
    ensures inv(Run(step, s, actions)) && rel(s, Run(step, s, actions))
    decreases |actions|
  {
    if actions != [] {
      RelationOfRun(step, inv, rel, s, actions[..|actions| - 1]);
    }
  }
}
