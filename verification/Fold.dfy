/** Runs of any machine: what one run after another comes to does not depend on what
    the steps do. */
module Fold {

  ghost function Run<T(!new), A(!new)>(next: (T, A) -> T, s: T, steps: seq<A>): T {
    if steps == [] then s else next(Run(next, s, steps[..|steps| - 1]), steps[|steps| - 1])
  }

  lemma {:induction false} RunAppend<T(!new), A(!new)>(next: (T, A) -> T, s: T, a: seq<A>, b: seq<A>)
    ensures Run(next, s, a + b) == Run(next, Run(next, s, a), b)
  {
    if b == [] {
      assert a + b == a;
    } else {
      var n := |b| - 1;
      RunAppend(next, s, a, b[..n]);
      assert (a + b)[..|a + b| - 1] == a + b[..n];
    }
  }

  // The same for any function that runs next.
  lemma SameAppend<T(!new), A(!new)>(exec: (T, seq<A>) -> T, next: (T, A) -> T, s: T, a: seq<A>, b: seq<A>)
    requires forall t: T, steps: seq<A> :: exec(t, steps) == Run(next, t, steps)
    ensures exec(s, a + b) == exec(exec(s, a), b)
  {
    RunAppend(next, s, a, b);
  }

  // The steps of n rounds, one after the other.
  ghost function Flat<A>(rounds: nat -> seq<A>, n: nat): seq<A> {
    if n == 0 then [] else Flat(rounds, n - 1) + rounds(n - 1)
  }

  // Rounds that lead from each state to the next lead from the first to the last.
  lemma {:induction false} FlatLeads<T(!new), A(!new)>(
    next: (T, A) -> T, state: nat -> T, rounds: nat -> seq<A>, n: nat)
    requires forall k: nat :: k < n ==> Run(next, state(k), rounds(k)) == state(k + 1)
    ensures Run(next, state(0), Flat(rounds, n)) == state(n)
  {
    if n > 0 {
      FlatLeads(next, state, rounds, n - 1);
      RunAppend(next, state(0), Flat(rounds, n - 1), rounds(n - 1));
    }
  }
}
