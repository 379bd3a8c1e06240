/** Scan and RetirePointer in the middle of other threads' work. */
module ScanTheorems {
  import opened Wrappers
  import opened Machine
  import opened Sums
  import opened RetireInvariant
  import opened HazardSafety
  import opened QueueTheorems
  import opened InterleavedReclaim

  // ----- Scan

  /** Thread `t` gets the mutex for a Scan in move `i` and has walked the registered threads in state `j`. */
  ghost predicate ScanCall<T>(r: Log<T>, t: Tid, i: nat, j: nat)
    requires Sized(r)
  {
    && i + 1 < j < |r.st| && r.mv[i].t == t
    && (forall k :: i <= k <= j ==> t < |r.st[k].pcs|)
    && r.st[i].pcs[t] == Scan(S162)
    && (forall k :: i < k < j ==> r.st[k].pcs[t].Scan? && r.st[k].pcs[t].s.S163?)
    && r.st[j].pcs[t] == Scan(S177)
  }

  /** Node `p` of the list of the thread registered at `y` is still there or already in the global list. */
  ghost predicate OnItsWay(b: Bins, who: seq<Tid>, pc: ScanPc, y: nat, p: Ptr)
    requires y < |who|
  {
    && who <= b.registered && pc.S163? && pc.end == |who|
    && (p in b.global || (pc.i <= y && who[y] < |b.locals| && p in b.locals[who[y]]))
  }

  lemma OwnSplice<T>(s: State<T>, t: Tid, c: Choice<T>, who: seq<Tid>, y: nat, p: Ptr)
    requires Shape(s) && t < |s.pcs| && s.pcs[t].Scan? && y < |who| && OnItsWay(s.bins, who, s.pcs[t].s, y, p)
    ensures var s' := Step(s, t, c);
      || (s'.pcs[t].Scan? && OnItsWay(s'.bins, who, s'.pcs[t].s, y, p))
      || (s'.pcs[t] == Scan(S177) && p in s'.bins.global)
  {
  }

  lemma OthersSpareLists<T>(s: State<T>, t: Tid, u: Tid, c: Choice<T>, who: seq<Tid>, y: nat, p: Ptr)
    requires Shape(s) && Locking(s) && t < |s.pcs| && u < |s.pcs| && u != t
    requires s.pcs[t].Scan? && y < |who| && OnItsWay(s.bins, who, s.pcs[t].s, y, p)
    ensures var s' := Step(s, u, c); s'.pcs[t] == s.pcs[t] && OnItsWay(s'.bins, who, s.pcs[t].s, y, p)
  {
    OthersSpareGlobal(s, t, u, c);
    MicroHandles(s, u, c);
    assert !HoldsLock(s.pcs[u]);
  }

  ghost predicate OnItsWayAt<T>(r: Log<T>, t: Tid, i: nat, k: nat, y: nat, p: Ptr)
    requires Sized(r) && i < |r.st| && k < |r.st|
  {
    && y < |r.st[i].bins.registered| && t < |r.st[k].pcs| && r.st[k].pcs[t].Scan?
    && OnItsWay(r.st[k].bins, r.st[i].bins.registered, r.st[k].pcs[t].s, y, p)
  }

  lemma GatherStep<T>(r: Log<T>, n: nat, v: T, t: Tid, i: nat, k: nat, y: nat, p: Ptr)
    requires IsRun(r, n, v) && i < k < |r.mv| && OnItsWayAt(r, t, i, k, y, p)
    ensures OnItsWayAt(r, t, i, k + 1, y, p) ||
      (t < |r.st[k + 1].pcs| && r.st[k + 1].pcs[t] == Scan(S177) && p in r.st[k + 1].bins.global)
  {
    InvAt(r, n, v, k);
    assert Moved(r, k);
    if r.mv[k].t == t {
      OwnSplice(r.st[k], t, r.mv[k].c, r.st[i].bins.registered, y, p);
    } else {
      OthersSpareLists(r.st[k], t, r.mv[k].t, r.mv[k].c, r.st[i].bins.registered, y, p);
    }
  }

  lemma GatherStarts<T>(r: Log<T>, n: nat, v: T, t: Tid, i: nat, j: nat, y: nat, p: Ptr)
    requires IsRun(r, n, v) && ScanCall(r, t, i, j) && y < |r.st[i].bins.registered|
    requires r.st[i].bins.registered[y] < |r.st[i].bins.locals| && p in r.st[i].bins.locals[r.st[i].bins.registered[y]]
    ensures OnItsWayAt(r, t, i, i + 1, y, p)
  {
    assert Moved(r, i);
    assert r.st[i + 1].pcs[t].s.S163?;
  }

  lemma GatherEnds<T>(r: Log<T>, n: nat, v: T, t: Tid, i: nat, j: nat, y: nat, p: Ptr)
    requires IsRun(r, n, v) && ScanCall(r, t, i, j) && y < |r.st[i].bins.registered|
    requires r.st[i].bins.registered[y] < |r.st[i].bins.locals| && p in r.st[i].bins.locals[r.st[i].bins.registered[y]]
    ensures p in r.st[j].bins.global
  {
    GatherStarts(r, n, v, t, i, j, y, p);
    for k := i + 1 to j - 1
      invariant OnItsWayAt(r, t, i, k, y, p)
    {
      GatherStep(r, n, v, t, i, k, y, p);
      assert r.st[k + 1].pcs[t].s.S163?;
    }
    GatherStep(r, n, v, t, i, j - 1, y, p);
  }

  lemma ListsStay<T>(r: Log<T>, n: nat, v: T, i: nat, j: nat)
    requires IsRun(r, n, v) && i < |r.st| && j < |r.st|
    ensures |r.st[i].bins.locals| == |r.st[j].bins.locals|
  {
    InvAt(r, n, v, i);
    InvAt(r, n, v, j);
  }

  /** A node is in the global list or in a local one, not in both. */
  lemma NotInBoth<T>(r: Log<T>, n: nat, v: T, i: nat, u: Tid, p: Ptr)
    requires IsRun(r, n, v) && i < |r.st| && u < |r.st[i].bins.locals| && p in r.st[i].bins.global
    ensures p !in r.st[i].bins.locals[u]
  {
    DeletedAtMostOnce(r, n, v, i);
    var s := r.st[i];
    BagContains(s.bins.locals, u, AsBag);
    assert multiset(s.bins.global)[p] >= 1;
    assert Account(s)[p] >= AsBag(s.bins.locals[u])[p] + multiset(s.bins.global)[p];
    assert p in Account(s) && AsBag(s.bins.locals[u])[p] == 0;
  }

  /**
  In any run a Scan skips no one: whatever was in the list of a registered thread when the Scan got the mutex
  is in the global list, and no longer in the local one, when it lets go of the mutex.
  */
  lemma ScanSkipsNoOne<T>(r: Log<T>, n: nat, v: T, t: Tid, i: nat, j: nat, u: Tid, p: Ptr)
    requires IsRun(r, n, v) && ScanCall(r, t, i, j) && u in r.st[i].bins.registered
    requires u < |r.st[i].bins.locals| && p in r.st[i].bins.locals[u]
    ensures p in r.st[j].bins.global && u < |r.st[j].bins.locals| && p !in r.st[j].bins.locals[u]
  {
    var y :| 0 <= y < |r.st[i].bins.registered| && r.st[i].bins.registered[y] == u;
    GatherEnds(r, n, v, t, i, j, y, p);
    ListsStay(r, n, v, i, j);
    NotInBoth(r, n, v, j, u, p);
  }

  // ----- RetirePointer

  predicate IsStuck<T>(pc: Pc<T>) {
    pc.Ret? && pc.r.Stuck?
  }

  ghost predicate StuckOk<T>(s: State<T>) {
    forall t :: 0 <= t < |s.pcs| && IsStuck(s.pcs[t]) ==> |s.bins.global| > GLOBAL_THRESHOLD
  }

  lemma ActorStuck<T>(s: State<T>, t: Tid, c: Choice<T>)
    requires t < |s.pcs| && IsStuck(Micro(s, t, c).0)
    ensures s.pcs[t].Ret? && (s.pcs[t].r.R285? || s.pcs[t].r.Stuck?) && Micro(s, t, c).1.Nothing?
    ensures s.pcs[t].r.R285? ==> |s.bins.global| > GLOBAL_THRESHOLD
  {
  }

  lemma StuckStep<T>(s: State<T>, t: Tid, c: Choice<T>)
    requires Shape(s) && Locking(s) && t < |s.pcs| && StuckOk(s)
    ensures StuckOk(Step(s, t, c))
  {
    var s' := Step(s, t, c);
    forall u | 0 <= u < |s'.pcs| && IsStuck(s'.pcs[u]) ensures |s'.bins.global| > GLOBAL_THRESHOLD {
      if u == t {
        ActorStuck(s, t, c);
      } else {
        OthersSpareGlobal(s, u, t, c);
      }
    }
  }

  /** A RetirePointer that never comes back holds the mutex over a global list above its threshold. */
  lemma StuckMeansFull<T>(r: Log<T>, n: nat, v: T, j: nat, t: Tid)
    requires IsRun(r, n, v) && j < |r.st| && t < |r.st[j].pcs| && IsStuck(r.st[j].pcs[t])
    ensures r.st[j].bins.lock == Some(t) && |r.st[j].bins.global| > GLOBAL_THRESHOLD
  {
    for k := 0 to j
      invariant StuckOk(r.st[k])
    {
      InvAt(r, n, v, k);
      assert Moved(r, k);
      StuckStep(r.st[k], r.mv[k].t, r.mv[k].c);
    }
    InvAt(r, n, v, j);
    assert HoldsLock(r.st[j].pcs[t]);
  }

  /** A hand-over ends in a return with the mutex free exactly when the global list is not above its threshold. */
  lemma HandOverReturnsIff<T>(r: Log<T>, n: nat, v: T, i: nat, x: T)
    requires IsRun(r, n, v) && i < |r.mv| && r.mv[i].t < |r.st[i].pcs| && r.st[i].pcs[r.mv[i].t] == Ret(x, R285)
    ensures var t, s' := r.mv[i].t, r.st[i + 1];
      t < |s'.pcs| && if |r.st[i].bins.global| <= 5000 then s'.pcs[t] == Deq(Returning(Some(x))) && s'.bins.lock == None
                      else s'.pcs[t] == Ret(x, Stuck) && s'.bins.lock == Some(t)
  {
    InvAt(r, n, v, i);
    assert Moved(r, i);
    assert HoldsLock(r.st[i].pcs[r.mv[i].t]);
  }
}
