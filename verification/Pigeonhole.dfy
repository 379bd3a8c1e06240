/** Distinct entries drawn from a list are no more than the list is long. */
module Pigeonhole {

  ghost predicate Distinct<A>(xs: seq<A>) {
    forall i, j :: 0 <= i < j < |xs| ==> xs[i] != xs[j]
  }

  ghost function Elements<A>(xs: seq<A>): set<A> {
    set x | x in xs
  }

  lemma {:induction false} ElementsAtMost<A>(xs: seq<A>)
    ensures |Elements(xs)| <= |xs|
  {
    if xs == [] {
      assert Elements(xs) == {};
    } else {
      var init := xs[..|xs| - 1];
      ElementsAtMost(init);
      assert Elements(xs) == Elements(init) + {xs[|xs| - 1]};
    }
  }

  lemma {:induction false} ElementsOfDistinct<A>(xs: seq<A>)
    requires Distinct(xs)
    ensures |Elements(xs)| == |xs|
  {
    if xs == [] {
      assert Elements(xs) == {};
    } else {
      var init := xs[..|xs| - 1];
      ElementsOfDistinct(init);
      assert Elements(xs) == Elements(init) + {xs[|xs| - 1]};
      assert xs[|xs| - 1] !in Elements(init);
    }
  }

  lemma {:induction false} SubsetCard<A>(s: set<A>, r: set<A>)
    requires s <= r
    ensures |s| <= |r|
  {
    if s != {} {
      var x :| x in s;
      SubsetCard(s - {x}, r - {x});
    }
  }

  lemma DistinctBound<A>(xs: seq<A>, ys: seq<A>)
    requires Distinct(xs)
    requires forall i :: 0 <= i < |xs| ==> xs[i] in ys
    ensures |xs| <= |ys|
  {
    ElementsOfDistinct(xs);
    ElementsAtMost(ys);
    SubsetCard(Elements(xs), Elements(ys));
  }

  /** A sequence whose multiset has no repetition is distinct, and the other way round. */
  lemma {:induction false} DistinctIffOnce<A>(xs: seq<A>)
    ensures Distinct(xs) <==> forall x :: multiset(xs)[x] <= 1
  {
    if xs != [] {
      var init, last := xs[..|xs| - 1], xs[|xs| - 1];
      assert xs == init + [last];
      DistinctIffOnce(init);
      if Distinct(xs) {
        assert last !in init;
        assert forall x :: multiset(xs)[x] == multiset(init)[x] + (if x == last then 1 else 0);
      } else if Distinct(init) {
        assert last in multiset(init);
        assert multiset(xs)[last] >= 2;
      } else {
        var x :| multiset(init)[x] > 1;
        assert multiset(xs)[x] > 1;
      }
    }
  }
}
