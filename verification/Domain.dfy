/**
HazPtrDomain as an object: the loops of acquire, isProtected, Scan and reclaim_all, run without
interference, against what they promise. The slot list is kept by creation; the source walks it from
the newest slot to the oldest.
*/
module Domain {
  import opened Wrappers
  import opened Machine
  import opened Pigeonhole
  import opened Sums
  import RetireInvariant

  /** Some slot publishes `p`. */
  predicate Protected(slots: seq<Slot>, p: Ptr) {
    exists k :: 0 <= k < |slots| && slots[k].ptr == Some(p)
  }

  /** The entries a reclaim keeps, and those it deletes, in list order. */
  function Kept(slots: seq<Slot>, l: seq<Ptr>): seq<Ptr> {
    if l == [] then [] else (if Protected(slots, l[0]) then [l[0]] else []) + Kept(slots, l[1..])
  }

  function Dropped(slots: seq<Slot>, l: seq<Ptr>): seq<Ptr> {
    if l == [] then [] else (if Protected(slots, l[0]) then [] else [l[0]]) + Dropped(slots, l[1..])
  }

  lemma {:induction false} KeptAppend(slots: seq<Slot>, l: seq<Ptr>, p: Ptr)
    ensures Kept(slots, l + [p]) == Kept(slots, l) + if Protected(slots, p) then [p] else []
    ensures Dropped(slots, l + [p]) == Dropped(slots, l) + if Protected(slots, p) then [] else [p]
  {
    if l != [] {
      assert (l + [p])[1..] == l[1..] + [p];
      KeptAppend(slots, l[1..], p);
    }
  }

  /** The first element of the second part may be cut out or moved to the first part. */
  lemma Cut(a: seq<Ptr>, b: seq<Ptr>)
    requires b != []
    ensures (a + b)[..|a|] + (a + b)[|a| + 1..] == a + b[1..]
    ensures a + b == (a + [b[0]]) + b[1..]
  {
  }

  /** Examining one more entry moves it to the kept or to the dropped ones. */
  lemma ExamineNext(slots: seq<Slot>, all: seq<Ptr>, q: nat)
    requires q < |all|
    ensures var kept, rest := Kept(slots, all[..q]), all[q..];
      && (kept + rest)[|kept|] == all[q]
      && (Protected(slots, all[q]) ==> Kept(slots, all[..q + 1]) + all[q + 1..] == kept + rest)
      && (!Protected(slots, all[q]) ==>
            Kept(slots, all[..q + 1]) + all[q + 1..] == (kept + rest)[..|kept|] + (kept + rest)[|kept| + 1..])
    ensures Kept(slots, all[..q + 1]) == Kept(slots, all[..q]) + if Protected(slots, all[q]) then [all[q]] else []
    ensures Dropped(slots, all[..q + 1]) == Dropped(slots, all[..q]) + if Protected(slots, all[q]) then [] else [all[q]]
  {
    assert all[..q + 1] == all[..q] + [all[q]];
    KeptAppend(slots, all[..q], all[q]);
    Cut(Kept(slots, all[..q]), all[q..]);
    assert all[q..][1..] == all[q + 1..];
  }

  /** Every entry is kept or deleted, and the protected ones are exactly those kept. */
  lemma {:induction false} ReclaimPartitions(slots: seq<Slot>, l: seq<Ptr>)
    ensures multiset(l) == multiset(Kept(slots, l)) + multiset(Dropped(slots, l))
    ensures forall p :: p in Kept(slots, l) <==> p in l && Protected(slots, p)
    ensures forall p :: p in Dropped(slots, l) <==> p in l && !Protected(slots, p)
  {
    if l != [] {
      assert l == [l[0]] + l[1..];
      ReclaimPartitions(slots, l[1..]);
    }
  }

  lemma {:induction false} KeptDistinct(slots: seq<Slot>, l: seq<Ptr>)
    requires Distinct(l)
    ensures Distinct(Kept(slots, l))
  {
    if l != [] {
      KeptDistinct(slots, l[1..]);
      ReclaimPartitions(slots, l[1..]);
    }
  }

  /** After a reclaim of distinct entries no more survive than there are hazard slots. */
  lemma BacklogBound(slots: seq<Slot>, l: seq<Ptr>)
    requires Distinct(l)
    ensures |Kept(slots, l)| <= |slots|
  {
    var kept := Kept(slots, l);
    KeptDistinct(slots, l);
    ReclaimPartitions(slots, l);
    var shown := seq(|slots|, k requires 0 <= k < |slots| => slots[k].ptr);
    var wanted := seq(|kept|, i requires 0 <= i < |kept| => Some(kept[i]));
    forall i | 0 <= i < |wanted| ensures wanted[i] in shown {
      assert kept[i] in kept;
      var k :| 0 <= k < |slots| && slots[k].ptr == Some(kept[i]);
      assert shown[k] == wanted[i];
    }
    DistinctBound(wanted, shown);
  }

  /** A second reclaim right after the first deletes nothing. */
  lemma {:induction false} ReclaimIsStable(slots: seq<Slot>, l: seq<Ptr>)
    ensures Kept(slots, Kept(slots, l)) == Kept(slots, l) && Dropped(slots, Kept(slots, l)) == []
  {
    if l != [] {
      ReclaimIsStable(slots, l[1..]);
      var rest := Kept(slots, l[1..]);
      if Protected(slots, l[0]) {
        assert Kept(slots, l) == [l[0]] + rest && ([l[0]] + rest)[1..] == rest;
      } else {
        assert Kept(slots, l) == rest;
      }
    }
  }

  /** The thread-local lists of `who`, spliced one after another; a list named twice is empty the second time. */
  function Gathered(locals: seq<seq<Ptr>>, who: seq<Tid>): (seq<Ptr>, seq<seq<Ptr>>)
    decreases |who|
  {
    if who == [] then ([], locals)
    else
      var n := |who| - 1;
      var (l, rest) := Gathered(locals, who[..n]);
      if who[n] < |rest| then (l + rest[who[n]], rest[who[n] := []]) else (l, rest)
  }

  /** Everything in the retired lists `locals` and in `l`. */
  ghost function Stock(locals: seq<seq<Ptr>>, l: seq<Ptr>): multiset<Ptr> {
    Bag(locals, RetireInvariant.AsBag) + multiset(l)
  }

  /** The lists of `who` are emptied, the others are as they were, and nothing is lost or duplicated. */
  lemma {:induction false} GatheredMeans(locals: seq<seq<Ptr>>, who: seq<Tid>)
    ensures var (l, rest) := Gathered(locals, who);
      && |rest| == |locals|
      && (forall u :: 0 <= u < |locals| ==> rest[u] == if u in who then [] else locals[u])
      && Stock(rest, l) == Stock(locals, [])
    decreases |who|
  {
    if who != [] {
      var n := |who| - 1;
      var (l, rest) := Gathered(locals, who[..n]);
      GatheredMeans(locals, who[..n]);
      assert who == who[..n] + [who[n]];
      if who[n] < |rest| {
        RetireInvariant.SpliceLocal(Bins([], rest, l, None, []), who[n]);
      }
    }
  }

  lemma ScanConserves(locals: seq<seq<Ptr>>, who: seq<Tid>, global: seq<Ptr>, freed: seq<Ptr>, slots: seq<Slot>)
    ensures var (l, rest) := Gathered(locals, who); var all := global + l;
      Stock(rest, Kept(slots, all) + (freed + Dropped(slots, all))) == Stock(locals, global + freed)
  {
    var (l, rest) := Gathered(locals, who);
    GatheredMeans(locals, who);
    ReclaimPartitions(slots, global + l);
    Regroup(Bag(rest, RetireInvariant.AsBag), Bag(locals, RetireInvariant.AsBag), multiset(l), multiset(global),
            multiset(freed), multiset(Kept(slots, global + l)), multiset(Dropped(slots, global + l)));
  }

  lemma Regroup(r: multiset<Ptr>, b: multiset<Ptr>, l: multiset<Ptr>, g: multiset<Ptr>, f: multiset<Ptr>,
                k: multiset<Ptr>, d: multiset<Ptr>)
    requires r + l == b && g + l == k + d
    ensures r + (k + (f + d)) == b + (g + f)
  {
    forall p ensures (r + (k + (f + d)))[p] == (b + (g + f))[p] {
      assert (r + l)[p] == b[p] && (g + l)[p] == (k + d)[p];
    }
  }

  class HazPtrDomain {
    var slots: seq<Slot>
    var global: seq<Ptr>
    var locals: seq<seq<Ptr>>
    var registered: seq<Tid>
    var freed: seq<Ptr>

    constructor (threads: nat)
      ensures slots == [] && global == [] && registered == [] && freed == []
      ensures |locals| == threads && forall t :: 0 <= t < threads ==> locals[t] == []
    {
      slots, global, registered, freed := [], [], [], [];
      locals := seq(threads, _ => []);
    }

    method RegisterThread(t: Tid)
      modifies this`registered
      ensures registered == old(registered) + [t]
    {
      registered := registered + [t];
    }

    /** Hands out the newest slot without an owner, or a new slot when all are owned. */
    method Acquire(t: Tid) returns (k: SlotId)
      modifies this`slots
      ensures k == old(PickSlot(slots, |slots|)) && slots == old(AcquireSlot(slots, t))
      ensures k < |slots| && slots[k].owner == Some(t)
      ensures k < old(|slots|) ==> old(slots[k].owner) == None && |slots| == old(|slots|)
      ensures k == old(|slots|) ==> forall j :: 0 <= j < k ==> old(slots)[j].owner != None
    {
      var c := |slots|;
      while c > 0
        invariant 0 <= c <= |slots| && slots == old(slots)
        invariant PickSlot(slots, |slots|) == PickSlot(slots, c)
      {
        if slots[c - 1].owner == None {
          slots := slots[c - 1 := slots[c - 1].(owner := Some(t))];
          return c - 1;
        }
        c := c - 1;
      }
      k := |slots|;
      slots := slots + [Slot(None, Some(t))];
    }

    /** Clears a slot and gives it back; releasing no slot does nothing. */
    method Release(k: Option<SlotId>)
      requires k.Some? ==> k.value < |slots|
      modifies this`slots
      ensures slots == if k.Some? then old(slots)[k.value := Slot(None, None)] else old(slots)
    {
      if k.Some? {
        slots := slots[k.value := slots[k.value].(ptr := None)];
        slots := slots[k.value := slots[k.value].(owner := None)];
      }
    }

    method IsProtected(p: Ptr) returns (found: bool)
      ensures found <==> Protected(slots, p)
    {
      var c := |slots|;
      while c > 0
        invariant 0 <= c <= |slots|
        invariant forall k :: c <= k < |slots| ==> slots[k].ptr != Some(p)
      {
        if slots[c - 1].ptr == Some(p) {
          return true;
        }
        c := c - 1;
      }
      return false;
    }

    /** The locked part of reclaim_all: moves the unprotected entries to `to_reclaim`. */
    method Sweep() returns (toReclaim: seq<Ptr>)
      modifies this`global
      ensures global == Kept(slots, old(global)) && toReclaim == Dropped(slots, old(global))
    {
      toReclaim := [];
      var i := 0;
      ghost var all, q := global, 0;
      while i < |global|
        invariant q <= |all| && i == |Kept(slots, all[..q])|
        invariant global == Kept(slots, all[..q]) + all[q..]
        invariant toReclaim == Dropped(slots, all[..q])
        decreases |all| - q
      {
        ExamineNext(slots, all, q);
        var found := IsProtected(global[i]);
        if !found {
          toReclaim := toReclaim + [global[i]];
          global := global[..i] + global[i + 1..];
        } else {
          i := i + 1;
        }
        q := q + 1;
      }
      assert all[..q] == all;
    }

    /** Deletes exactly the unprotected entries, in order, and keeps the protected ones in order. */
    method ReclaimAll()
      modifies this`global, this`freed
      ensures global == Kept(slots, old(global))
      ensures freed == old(freed) + Dropped(slots, old(global))
    {
      var toReclaim := Sweep();
      var j := 0;
      while j < |toReclaim|
        invariant global == Kept(slots, old(global))
        invariant 0 <= j <= |toReclaim| && freed == old(freed) + toReclaim[..j]
      {
        freed := freed + [toReclaim[j]];
        j := j + 1;
      }
    }

    /**
    Splices the lists of the registered threads into the global list, then reclaims: the registered lists
    are empty, of what was listed exactly the unprotected nodes are deleted and the others are still listed.
    */
    method Scan()
      modifies this`global, this`locals, this`freed
      ensures locals == Gathered(old(locals), registered).1
      ensures global == Kept(slots, old(global) + Gathered(old(locals), registered).0)
      ensures freed == old(freed) + Dropped(slots, old(global) + Gathered(old(locals), registered).0)
      ensures |locals| == old(|locals|)
      ensures forall u :: 0 <= u < |locals| ==> locals[u] == if u in registered then [] else old(locals[u])
      ensures Stock(locals, global + freed) == old(Stock(locals, global + freed))
    {
      var i := 0;
      while i < |registered|
        invariant 0 <= i <= |registered| && freed == old(freed)
        invariant global == old(global) + Gathered(old(locals), registered[..i]).0
        invariant locals == Gathered(old(locals), registered[..i]).1
      {
        assert registered[..i + 1][..i] == registered[..i];
        if registered[i] < |locals| {
          global := global + locals[registered[i]];
          locals := locals[registered[i] := []];
        }
        i := i + 1;
      }
      assert registered[..i] == registered;
      GatheredMeans(old(locals), registered);
      ScanConserves(old(locals), registered, old(global), old(freed), slots);
      ReclaimAll();
    }

    /**
    Appends to the thread's list and, at the threshold, moves the list to the global one. `stuck` reports
    that the global list is over its threshold: the source then calls Scan with the mutex held.
    */
    method RetirePointer(t: Tid, p: Ptr) returns (stuck: bool)
      requires t < |locals|
      modifies this`global, this`locals
      ensures var l := old(locals)[t] + [p];
        if |l| < LOCAL_THRESHOLD
        then locals == old(locals)[t := l] && global == old(global) && !stuck
        else locals == old(locals)[t := []] && global == old(global) + l && stuck == (|global| > GLOBAL_THRESHOLD)
      ensures |locals[t]| < LOCAL_THRESHOLD
    {
      locals := locals[t := locals[t] + [p]];
      stuck := false;
      if |locals[t]| >= LOCAL_THRESHOLD {
        global := global + locals[t];
        locals := locals[t := []];
        stuck := |global| > GLOBAL_THRESHOLD;
      }
    }
  }
}
