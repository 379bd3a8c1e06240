/** Totals of a weight over a sequence of threads, and how one step changes them. */
module Sums {

  /** The sum of `w` over `ps`. */
  ghost function Total<P>(ps: seq<P>, w: P -> int): int {
    if |ps| == 0 then 0 else Total(ps[..|ps| - 1], w) + w(ps[|ps| - 1])
  }

  /** The sum of the multisets `f` assigns to the members of `ps`. */
  ghost function Bag<P, X>(ps: seq<P>, f: P -> multiset<X>): multiset<X> {
    if |ps| == 0 then multiset{} else Bag(ps[..|ps| - 1], f) + f(ps[|ps| - 1])
  }

  lemma {:induction false} TotalUpdate<P>(ps: seq<P>, t: nat, p: P, w: P -> int)
    requires t < |ps|
    ensures Total(ps[t := p], w) == Total(ps, w) - w(ps[t]) + w(p)
  {
    var n := |ps| - 1;
    if t == n {
      assert ps[t := p][..n] == ps[..n];
    } else {
      assert ps[t := p][..n] == ps[..n][t := p];
      TotalUpdate(ps[..n], t, p, w);
    }
  }

  lemma TotalAppend<P>(ps: seq<P>, p: P, w: P -> int)
    ensures Total(ps + [p], w) == Total(ps, w) + w(p)
  {
    assert (ps + [p])[..|ps|] == ps;
  }

  lemma {:induction false} TotalUniform<P>(ps: seq<P>, w: P -> int, c: int)
    requires forall t :: 0 <= t < |ps| ==> w(ps[t]) == c
    ensures Total(ps, w) == c * |ps|
  {
    if |ps| > 0 {
      TotalUniform(ps[..|ps| - 1], w, c);
    }
  }

  /** A total of non-negative weights is at least any one of them. */
  lemma {:induction false} TotalAtLeast<P>(ps: seq<P>, t: nat, w: P -> int)
    requires t < |ps|
    requires forall p :: w(p) >= 0
    ensures Total(ps, w) >= w(ps[t])
  {
    TotalNonNegative(ps[..|ps| - 1], w);
    if t < |ps| - 1 {
      TotalAtLeast(ps[..|ps| - 1], t, w);
    }
  }

  lemma {:induction false} TotalNonNegative<P>(ps: seq<P>, w: P -> int)
    requires forall p :: w(p) >= 0
    ensures Total(ps, w) >= 0
  {
    if |ps| > 0 {
      TotalNonNegative(ps[..|ps| - 1], w);
    }
  }

  /** Pointwise order carries over to the totals. */
  lemma {:induction false} TotalMonotone<P>(ps: seq<P>, v: P -> int, w: P -> int)
    requires forall p :: v(p) <= w(p)
    ensures Total(ps, v) <= Total(ps, w)
  {
    if |ps| > 0 {
      TotalMonotone(ps[..|ps| - 1], v, w);
    }
  }

  lemma Exchange<X>(a: multiset<X>, b: multiset<X>, c: multiset<X>, d: multiset<X>, e: multiset<X>)
    requires a + b == c + d
    ensures (a + e) + b == (c + e) + d
  {
    assert (a + e) + b == (a + b) + e;
  }

  lemma {:induction false} BagUpdate<P, X>(ps: seq<P>, t: nat, p: P, f: P -> multiset<X>)
    requires t < |ps|
    ensures Bag(ps[t := p], f) + f(ps[t]) == Bag(ps, f) + f(p)
  {
    var n := |ps| - 1;
    if t == n {
      assert ps[t := p][..n] == ps[..n];
    } else {
      var q := ps[..n];
      assert ps[t := p][..n] == q[t := p] && q[t] == ps[t];
      BagUpdate(q, t, p, f);
      Exchange(Bag(q[t := p], f), f(ps[t]), Bag(q, f), f(p), f(ps[n]));
    }
  }

  lemma BagAppend<P, X>(ps: seq<P>, p: P, f: P -> multiset<X>)
    ensures Bag(ps + [p], f) == Bag(ps, f) + f(p)
  {
    assert (ps + [p])[..|ps|] == ps;
  }

  lemma {:induction false} BagContains<P, X>(ps: seq<P>, t: nat, f: P -> multiset<X>)
    requires t < |ps|
    ensures f(ps[t]) <= Bag(ps, f)
  {
    if t < |ps| - 1 {
      BagContains(ps[..|ps| - 1], t, f);
    }
  }

  lemma {:induction false} BagEmpty<P, X>(ps: seq<P>, f: P -> multiset<X>)
    requires forall t :: 0 <= t < |ps| ==> f(ps[t]) == multiset{}
    ensures Bag(ps, f) == multiset{}
  {
    if |ps| > 0 {
      BagEmpty(ps[..|ps| - 1], f);
    }
  }
}
