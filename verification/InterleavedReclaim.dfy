/**
reclaim_all in the middle of other threads' work. As long as no slot publishes anything else while the
reclaimer holds the mutex of the global list, it deletes exactly the unprotected entries, unless its walk for a
protected entry is cut; and then it does not. The other threads may enqueue, dequeue up to their next
publication, acquire slots, retire nodes or wait for the mutex.
*/
module InterleavedReclaim {
  import opened Wrappers
  import opened Machine
  import opened RetireInvariant
  import opened HazardSafety
  import opened SafetyTheorems
  import opened QueueTheorems
  import opened Domain

  /** What slot `k` publishes; a slot not yet created publishes nothing. */
  ghost function Shown(slots: seq<Slot>, k: SlotId): Option<Ptr> {
    if k < |slots| then slots[k].ptr else None
  }

  ghost predicate SameShown(slots: seq<Slot>, slots': seq<Slot>) {
    forall k: SlotId :: Shown(slots, k) == Shown(slots', k)
  }

  /** The first `q` entries of `all` are examined: `g` is what the list has become, `pc` where the reclaimer is. */
  ghost predicate Examined(slots: seq<Slot>, all: seq<Ptr>, q: nat, g: seq<Ptr>, pc: ScanPc) {
    && q <= |all|
    && g == Kept(slots, all[..q]) + all[q..]
    && match pc
      case S179(i, claimed) => i == |Kept(slots, all[..q])| && claimed == Dropped(slots, all[..q])
      case S151(i, c, claimed) =>
        && i == |Kept(slots, all[..q])| && claimed == Dropped(slots, all[..q])
        && q < |all| && forall k: SlotId :: k >= c ==> Shown(slots, k) != Some(all[q])
      case S154(i, c, claimed) =>
        && i == |Kept(slots, all[..q])| && claimed == Dropped(slots, all[..q])
        && q < |all| && forall k: SlotId :: k + 1 >= c ==> Shown(slots, k) != Some(all[q])
      case S189(claimed) => q == |all| && claimed == Dropped(slots, all[..q])
      case _ => false
  }

  lemma NoneShown(slots: seq<Slot>, p: Ptr)
    requires forall k: SlotId :: Shown(slots, k) != Some(p)
    ensures !Protected(slots, p)
  {
    forall k | 0 <= k < |slots| ensures slots[k].ptr != Some(p) {
      assert Shown(slots, k) != Some(p);
    }
  }

  /** The loop head: the next entry is taken up with all slots still to compare, or the loop ends. */
  lemma LoopHead<T>(s: State<T>, slots: seq<Slot>, all: seq<Ptr>, q: nat, p: ScanPc)
    requires p.S179? && Examined(slots, all, q, s.bins.global, p) && SameShown(slots, s.slots)
    ensures var (pc', e) := StepScan(s, p);
      pc'.Scan? && Examined(slots, all, q, s.bins.global, pc'.s) && (e.Nothing? || e.Unlock?)
  {
    if p.i < |s.bins.global| {
      forall k: SlotId | k >= |s.slots| ensures Shown(slots, k) != Some(all[q]) {
        assert Shown(slots, k) == Shown(s.slots, k);
      }
    }
  }

  /** One comparison of isProtected. */
  lemma Compare<T>(s: State<T>, slots: seq<Slot>, all: seq<Ptr>, q: nat, p: ScanPc) returns (q': nat)
    requires p.S151? && Examined(slots, all, q, s.bins.global, p) && SameShown(slots, s.slots) && p.c <= |s.slots|
    ensures var (pc', e) := StepScan(s, p);
      pc'.Scan? && Examined(slots, all, q', ApplyBins(s.bins, 0, e).global, pc'.s) && (e.Nothing? || e.Claim?)
  {
    ExamineNext(slots, all, q);
    if p.c == 0 {
      NoneShown(slots, all[q]);
      q' := q + 1;
    } else {
      assert Shown(slots, p.c - 1) == Shown(s.slots, p.c - 1);
      q' := if s.slots[p.c - 1].ptr == Some(all[q]) then q + 1 else q;
    }
  }

  /** One `next_` is read; a cut does no harm to an entry that is not protected. */
  lemma FollowNext<T>(s: State<T>, t: Tid, slots: seq<Slot>, all: seq<Ptr>, q: nat)
    requires t < |s.pcs| && s.pcs[t].Scan? && s.pcs[t].s.S154? && s.pcs[t].s.c > 0
    requires Examined(slots, all, q, s.bins.global, s.pcs[t].s) && SameShown(slots, s.slots)
    requires forall p :: CutOn(s, t, p) ==> !Protected(slots, p)
    ensures var (pc', e) := StepScan(s, s.pcs[t].s);
      pc'.Scan? && Examined(slots, all, q, s.bins.global, pc'.s) && e.Nothing?
  {
    ExamineNext(slots, all, q);
    var p := s.pcs[t].s;
    if s.list.half && p.c == |s.slots| {
      if |s.slots| > 1 {
        assert CutOn(s, t, all[q]);
        NotShown(slots, all[q]);
      }
    }
  }

  lemma NotShown(slots: seq<Slot>, p: Ptr)
    requires !Protected(slots, p)
    ensures forall k: SlotId :: Shown(slots, k) != Some(p)
  {
  }

  predicate Sweeping<T>(pc: Pc<T>) {
    pc.Scan? && (pc.s.S179? || pc.s.S151? || pc.s.S154?)
  }

  predicate Deleting<T>(pc: Pc<T>) {
    pc.Scan? && pc.s.S189?
  }

  /** While a thread holds the mutex the global list and that thread's place are its own. */
  lemma OthersSpareGlobal<T>(s: State<T>, t: Tid, u: Tid, c: Choice<T>)
    requires Shape(s) && Locking(s) && t < |s.pcs| && u < |s.pcs| && u != t && HoldsLock(s.pcs[t])
    ensures Step(s, u, c).bins.global == s.bins.global && Step(s, u, c).pcs[t] == s.pcs[t]
  {
    MicroHandles(s, u, c);
    assert !HoldsLock(s.pcs[u]);
  }

  lemma SweepStep<T>(s: State<T>, t: Tid, u: Tid, c: Choice<T>, slots: seq<Slot>, all: seq<Ptr>, q: nat)
    returns (q': nat)
    requires Shape(s) && Locking(s) && t < |s.pcs| && u < |s.pcs| && Sweeping(s.pcs[t])
    requires Examined(slots, all, q, s.bins.global, s.pcs[t].s) && SameShown(slots, s.slots)
    requires u == t ==> forall p :: CutOn(s, t, p) ==> !Protected(slots, p)
    ensures var s' := Step(s, u, c); s'.pcs[t].Scan? && Examined(slots, all, q', s'.bins.global, s'.pcs[t].s)
  {
    q' := q;
    if u != t {
      OthersSpareGlobal(s, t, u, c);
    } else if s.pcs[t].s.S179? {
      LoopHead(s, slots, all, q, s.pcs[t].s);
    } else if s.pcs[t].s.S154? {
      assert CursorOk(s, s.pcs[t]);
      FollowNext(s, t, slots, all, q);
    } else {
      assert CursorOk(s, s.pcs[t]);
      q' := Compare(s, slots, all, q, s.pcs[t].s);
    }
  }

  /**
  Thread `t` runs reclaim_all in the moves `i` to `m` and releases the mutex in state `j`: until then it
  walks the list, afterwards it deletes.
  */
  ghost predicate ReclaimCall<T>(r: Log<T>, t: Tid, i: nat, j: nat, m: nat)
    requires Sized(r)
  {
    && i < j < m < |r.st|
    && r.mv[i].t == t
    && (forall k :: i <= k <= m ==> t < |r.st[k].pcs|)
    && r.st[i].pcs[t] == Scan(S177)
    && (forall k :: i < k < j ==> Sweeping(r.st[k].pcs[t]))
    && (forall k :: j <= k < m ==> Deleting(r.st[k].pcs[t]))
    && r.st[m].pcs[t] == Idle
  }

  /** No slot publishes anything else in the states from `i` up to `j`. */
  ghost predicate SlotsRest<T>(r: Log<T>, i: nat, j: nat)
    requires Sized(r) && i <= j < |r.st|
  {
    forall k :: i <= k < j ==> SameShown(r.st[i].slots, r.st[k].slots)
  }

  /** Between `i` and `j` a walk of thread `t` for an entry that was protected in state `i` is cut. */
  ghost predicate Harmed<T>(r: Log<T>, t: Tid, i: nat, j: nat)
    requires Sized(r) && i < |r.st|
  {
    exists c, p :: i < c < j && CutAt(r, c, p) && r.mv[c].t == t && Protected(r.st[i].slots, p)
  }

  /** The nodes thread `t` deletes in the moves from `i` up to `k`, in order. */
  ghost function DeletedBy<T>(r: Log<T>, t: Tid, i: nat, k: nat): seq<Ptr>
    requires Sized(r) && i <= k < |r.st|
    decreases k
  {
    if k == i then []
    else DeletedBy(r, t, i, k - 1) + if r.mv[k - 1].t == t && r.ef[k - 1].Free? then [r.ef[k - 1].x] else []
  }

  ghost predicate ExaminedAt<T>(r: Log<T>, t: Tid, i: nat, k: nat, q: nat)
    requires Sized(r) && i < |r.st| && k < |r.st|
  {
    && t < |r.st[k].pcs| && r.st[k].pcs[t].Scan?
    && Examined(r.st[i].slots, r.st[i].bins.global, q, r.st[k].bins.global, r.st[k].pcs[t].s)
  }

  lemma Enters<T>(r: Log<T>, n: nat, v: T, t: Tid, i: nat, j: nat, m: nat)
    requires IsRun(r, n, v) && ReclaimCall(r, t, i, j, m)
    ensures ExaminedAt(r, t, i, i + 1, 0) && i + 1 < j
  {
    assert Moved(r, i);
    var g := r.st[i].bins.global;
    assert Kept(r.st[i].slots, g[..0]) == [] && [] + g[0..] == g;
  }

  lemma Walks<T>(r: Log<T>, n: nat, v: T, t: Tid, i: nat, k: nat, q: nat) returns (q': nat)
    requires IsRun(r, n, v) && i < k < |r.mv| && ExaminedAt(r, t, i, k, q) && Sweeping(r.st[k].pcs[t])
    requires SameShown(r.st[i].slots, r.st[k].slots)
    requires forall p :: CutAt(r, k, p) && r.mv[k].t == t ==> !Protected(r.st[i].slots, p)
    ensures ExaminedAt(r, t, i, k + 1, q')
  {
    InvAt(r, n, v, k);
    assert Moved(r, k);
    assert r.mv[k].t == t ==> forall p :: CutOn(r.st[k], t, p) ==> CutAt(r, k, p);
    q' := SweepStep(r.st[k], t, r.mv[k].t, r.mv[k].c, r.st[i].slots, r.st[i].bins.global, q);
  }

  /** When the reclaimer releases the mutex it has claimed the unprotected entries and left the protected ones. */
  lemma LockedPart<T>(r: Log<T>, n: nat, v: T, t: Tid, i: nat, j: nat, m: nat)
    requires IsRun(r, n, v) && ReclaimCall(r, t, i, j, m) && SlotsRest(r, i, j) && !Harmed(r, t, i, j)
    ensures r.st[j].bins.global == Kept(r.st[i].slots, r.st[i].bins.global)
    ensures r.st[j].pcs[t] == Scan(S189(Dropped(r.st[i].slots, r.st[i].bins.global)))
  {
    Enters(r, n, v, t, i, j, m);
    var q := 0;
    for k := i + 1 to j
      invariant ExaminedAt(r, t, i, k, q)
    {
      q := Walks(r, n, v, t, i, k, q);
    }
    var all := r.st[i].bins.global;
    assert all[..|all|] == all && all[|all|..] == [];
  }

  /** Until it releases the mutex it deletes nothing. */
  lemma SweepsOnly<T>(r: Log<T>, n: nat, v: T, t: Tid, i: nat, j: nat, m: nat)
    requires IsRun(r, n, v) && ReclaimCall(r, t, i, j, m)
    ensures DeletedBy(r, t, i, j) == []
  {
    for k := i to j
      invariant DeletedBy(r, t, i, k) == []
    {
      assert Moved(r, k);
      assert k > i ==> Sweeping(r.st[k].pcs[t]);
    }
  }

  // ----- a cut that does harm

  lemma SweepStaysCommitted<T>(s: State<T>, t: Tid, u: Tid, c: Choice<T>, p: Ptr)
    requires Shape(s) && Locking(s) && t < |s.pcs| && u < |s.pcs| && Sweeping(s.pcs[t])
    requires Committed(s.bins, s.pcs[t], p)
    ensures Committed(Step(s, u, c).bins, Step(s, u, c).pcs[t], p)
  {
    if u == t {
      assert CursorOk(s, s.pcs[t]);
      ActorStaysCommitted(s, t, c, p);
    } else {
      OtherReclaimer(s, u, c, t, 0, p);
    }
  }

  ghost predicate CommittedAt<T>(r: Log<T>, t: Tid, k: nat, p: Ptr)
    requires Sized(r) && k < |r.st|
  {
    t < |r.st[k].pcs| && Committed(r.st[k].bins, r.st[k].pcs[t], p)
  }

  lemma CommittedOn<T>(r: Log<T>, n: nat, v: T, t: Tid, k: nat, p: Ptr)
    requires IsRun(r, n, v) && k < |r.mv| && CommittedAt(r, t, k, p) && Sweeping(r.st[k].pcs[t])
    ensures CommittedAt(r, t, k + 1, p)
  {
    InvAt(r, n, v, k);
    assert Moved(r, k);
    SweepStaysCommitted(r.st[k], t, r.mv[k].t, r.mv[k].c, p);
  }

  /** After a cut the entry is among those claimed when the mutex is released. */
  lemma CutIsClaimed<T>(r: Log<T>, n: nat, v: T, t: Tid, i: nat, c: nat, j: nat, m: nat, p: Ptr)
    requires IsRun(r, n, v) && ReclaimCall(r, t, i, j, m) && i < c < j && CutAt(r, c, p) && r.mv[c].t == t
    ensures Deleting(r.st[j].pcs[t]) && p in r.st[j].pcs[t].s.claimed
  {
    assert Moved(r, c);
    assert CommittedAt(r, t, c + 1, p);
    for k := c + 1 to j
      invariant CommittedAt(r, t, k, p)
    {
      CommittedOn(r, n, v, t, k, p);
    }
  }

  // ----- the deletions

  /** What `t` has deleted since move `i` and what it still has claimed make up `all`. */
  ghost predicate Remaining<T>(r: Log<T>, t: Tid, i: nat, k: nat, all: seq<Ptr>)
    requires Sized(r) && i <= k < |r.st|
  {
    && t < |r.st[k].pcs| && Deleting(r.st[k].pcs[t])
    && DeletedBy(r, t, i, k) + r.st[k].pcs[t].s.claimed == all
  }

  lemma Deletes<T>(r: Log<T>, n: nat, v: T, t: Tid, i: nat, k: nat, all: seq<Ptr>)
    requires IsRun(r, n, v) && i <= k < |r.mv| && Remaining(r, t, i, k, all)
    ensures Remaining(r, t, i, k + 1, all) ||
      (t < |r.st[k + 1].pcs| && r.st[k + 1].pcs[t].Idle? && DeletedBy(r, t, i, k + 1) == all)
  {
    assert Moved(r, k);
    var cl := r.st[k].pcs[t].s.claimed;
    if r.mv[k].t == t && cl != [] {
      assert cl == [cl[0]] + cl[1..];
    }
  }

  lemma UnlockedPart<T>(r: Log<T>, n: nat, v: T, t: Tid, i: nat, j: nat, m: nat, all: seq<Ptr>)
    requires IsRun(r, n, v) && ReclaimCall(r, t, i, j, m) && Remaining(r, t, i, j, all)
    ensures DeletedBy(r, t, i, m) == all
  {
    for k := j to m - 1
      invariant Remaining(r, t, i, k, all)
    {
      Deletes(r, n, v, t, i, k, all);
      assert Deleting(r.st[k + 1].pcs[t]);
    }
    Deletes(r, n, v, t, i, m - 1, all);
  }

  /** What a reclaim_all deletes is what it has claimed when it releases the mutex. */
  lemma DeletesClaimed<T>(r: Log<T>, n: nat, v: T, t: Tid, i: nat, j: nat, m: nat)
    requires IsRun(r, n, v) && ReclaimCall(r, t, i, j, m)
    ensures Deleting(r.st[j].pcs[t]) && DeletedBy(r, t, i, m) == r.st[j].pcs[t].s.claimed
  {
    SweepsOnly(r, n, v, t, i, j, m);
    assert Deleting(r.st[j].pcs[t]);
    UnlockedPart(r, n, v, t, i, j, m, r.st[j].pcs[t].s.claimed);
  }

  /**
  In any run, if no slot publishes anything else while a reclaim_all holds the mutex, that reclaim_all
  leaves exactly the protected entries in the global list, in order, and deletes exactly the others, in
  order, if and only if none of its walks for a protected entry is cut. What the other threads do meanwhile,
  and what the slots publish after the mutex is released, does not matter.
  */
  lemma ReclaimInRunIff<T>(r: Log<T>, n: nat, v: T, t: Tid, i: nat, j: nat, m: nat)
    requires IsRun(r, n, v) && ReclaimCall(r, t, i, j, m) && SlotsRest(r, i, j)
    ensures var slots, all := r.st[i].slots, r.st[i].bins.global;
      !Harmed(r, t, i, j) <==> r.st[j].bins.global == Kept(slots, all) && DeletedBy(r, t, i, m) == Dropped(slots, all)
  {
    DeletesClaimed(r, n, v, t, i, j, m);
    if Harmed(r, t, i, j) {
      var c, p :| i < c < j && CutAt(r, c, p) && r.mv[c].t == t && Protected(r.st[i].slots, p);
      CutIsClaimed(r, n, v, t, i, c, j, m, p);
      ReclaimPartitions(r.st[i].slots, r.st[i].bins.global);
    } else {
      LockedPart(r, n, v, t, i, j, m);
    }
  }

  /** Once two slots per thread exist, every reclaim_all during which no publication changes is exact. */
  lemma ReclaimOnceSaturated<T>(r: Log<T>, n: nat, v: T, t: Tid, i: nat, j: nat, m: nat)
    requires IsRun(r, n, v) && ReclaimCall(r, t, i, j, m) && SlotsRest(r, i, j) && Saturated(r.st[i])
    ensures r.st[j].bins.global == Kept(r.st[i].slots, r.st[i].bins.global)
    ensures DeletedBy(r, t, i, m) == Dropped(r.st[i].slots, r.st[i].bins.global)
  {
    forall c | i < c < j ensures !r.st[c].list.half {
      StaysSaturated(r, n, v, i, c);
    }
    ReclaimInRunIff(r, n, v, t, i, j, m);
  }

  // ----- the backlog

  /** The entries that the reclaimer has passed are protected. */
  ghost predicate Survivors(slots: seq<Slot>, g: seq<Ptr>, pc: ScanPc) {
    match pc
    case S179(i, _) => i <= |g| && forall y :: 0 <= y < i ==> Protected(slots, g[y])
    case S151(i, _, _) => i < |g| && forall y :: 0 <= y < i ==> Protected(slots, g[y])
    case S154(i, _, _) => i < |g| && forall y :: 0 <= y < i ==> Protected(slots, g[y])
    case S189(_) => forall y :: 0 <= y < |g| ==> Protected(slots, g[y])
    case _ => false
  }

  lemma SurvivorStep<T>(s: State<T>, t: Tid, u: Tid, c: Choice<T>, slots: seq<Slot>)
    requires Shape(s) && Locking(s) && t < |s.pcs| && u < |s.pcs| && Sweeping(s.pcs[t])
    requires Survivors(slots, s.bins.global, s.pcs[t].s) && SameShown(slots, s.slots)
    ensures var s' := Step(s, u, c); s'.pcs[t].Scan? && Survivors(slots, s'.bins.global, s'.pcs[t].s)
  {
    if u != t {
      OthersSpareGlobal(s, t, u, c);
    } else {
      assert CursorOk(s, s.pcs[t]);
      OwnSurvivors(s, t, s.pcs[t].s, slots);
    }
  }

  lemma OwnSurvivors<T>(s: State<T>, t: Tid, p: ScanPc, slots: seq<Slot>)
    requires Survivors(slots, s.bins.global, p) && SameShown(slots, s.slots) && !p.S189?
    requires p.S151? ==> p.c <= |s.slots|
    ensures var (pc', e) := StepScan(s, p);
      pc'.Scan? && Survivors(slots, ApplyBins(s.bins, t, e).global, pc'.s)
  {
    if p.S151? && p.c > 0 && s.slots[p.c - 1].ptr == Some(s.bins.global[p.i]) {
      assert Shown(slots, p.c - 1) == Shown(s.slots, p.c - 1);
      assert Protected(slots, s.bins.global[p.i]);
    }
  }

  lemma {:induction false} KeptWhenProtected(slots: seq<Slot>, l: seq<Ptr>)
    requires forall y :: 0 <= y < |l| ==> Protected(slots, l[y])
    ensures Kept(slots, l) == l
  {
    if l != [] {
      KeptWhenProtected(slots, l[1..]);
    }
  }

  ghost predicate SurvivorsAt<T>(r: Log<T>, t: Tid, i: nat, k: nat)
    requires Sized(r) && i < |r.st| && k < |r.st|
  {
    && t < |r.st[k].pcs| && r.st[k].pcs[t].Scan?
    && Survivors(r.st[i].slots, r.st[k].bins.global, r.st[k].pcs[t].s)
  }

  lemma Survive<T>(r: Log<T>, n: nat, v: T, t: Tid, i: nat, k: nat)
    requires IsRun(r, n, v) && i < k < |r.mv| && SurvivorsAt(r, t, i, k) && Sweeping(r.st[k].pcs[t])
    requires SameShown(r.st[i].slots, r.st[k].slots)
    ensures SurvivorsAt(r, t, i, k + 1)
  {
    InvAt(r, n, v, k);
    assert Moved(r, k);
    SurvivorStep(r.st[k], t, r.mv[k].t, r.mv[k].c, r.st[i].slots);
  }

  lemma SurvivorsAtEnd<T>(r: Log<T>, n: nat, v: T, t: Tid, i: nat, j: nat, m: nat)
    requires IsRun(r, n, v) && ReclaimCall(r, t, i, j, m) && SlotsRest(r, i, j)
    ensures SurvivorsAt(r, t, i, j)
  {
    Enters(r, n, v, t, i, j, m);
    for k := i + 1 to j
      invariant SurvivorsAt(r, t, i, k)
    {
      Survive(r, n, v, t, i, k);
    }
  }

  /**
  Cut or not, a reclaim during which no publication changes leaves only protected entries: no more than
  there were slots, so at most two per thread.
  */
  lemma BacklogInRun<T>(r: Log<T>, n: nat, v: T, t: Tid, i: nat, j: nat, m: nat)
    requires IsRun(r, n, v) && ReclaimCall(r, t, i, j, m) && SlotsRest(r, i, j)
    ensures forall y :: 0 <= y < |r.st[j].bins.global| ==> Protected(r.st[i].slots, r.st[j].bins.global[y])
    ensures |r.st[j].bins.global| <= |r.st[i].slots| <= 2 * n
  {
    SurvivorsAtEnd(r, n, v, t, i, j, m);
    assert Deleting(r.st[j].pcs[t]);
    KeptWhenProtected(r.st[i].slots, r.st[j].bins.global);
    GlobalIsDistinct(r, n, v, j);
    SlotsAreBounded(r, n, v, i);
    BacklogBound(r.st[i].slots, r.st[j].bins.global);
  }
}
