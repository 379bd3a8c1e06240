/** Repeating a step function. */
module Iteration {

  ghost function Iterate<S>(f: S -> S, s: S, k: nat): S
    decreases k
  {
    if k == 0 then s else Iterate(f, f(s), k - 1)
  }

  lemma {:induction false} IterateCompose<S>(f: S -> S, s: S, j: nat, k: nat)
    ensures Iterate(f, s, j + k) == Iterate(f, Iterate(f, s, j), k)
    decreases j
  {
    if j > 0 {
      IterateCompose(f, f(s), j - 1, k);
    }
  }

  /** Some number of steps leads from `s` to `s'`. */
  ghost predicate Arrives<S>(f: S -> S, s: S, s': S) {
    exists k: nat :: Iterate(f, s, k) == s'
  }

  lemma ArrivesAtOnce<S>(f: S -> S, s: S)
    ensures Arrives(f, s, s)
  {
    assert Iterate(f, s, 0) == s;
  }

  lemma ArrivesNext<S>(f: S -> S, s0: S, s: S)
    requires Arrives(f, s0, s)
    ensures Arrives(f, s0, f(s))
  {
    var j: nat :| Iterate(f, s0, j) == s;
    assert Iterate(f, f(s), 0) == f(s);
    assert Iterate(f, s, 1) == f(s);
    IterateCompose(f, s0, j, 1);
  }
}
