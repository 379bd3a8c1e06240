/**
Hazard-pointer safety over every run. A node that a dequeue has validated stays undeleted while its slot
publishes it, unless some reclaimer's walk for it is cut between lines 132 and 133 of an acquire. This is
exact: a cut always loses the node. Once two slots per thread exist no walk is ever cut again.
*/
module SafetyTheorems {
  import opened Wrappers
  import opened Machine
  import opened Sums
  import opened SlotInvariant
  import opened RetireInvariant
  import opened HazardSafety
  import opened QueueTheorems

  /** Move `c` cuts a walk for node `p`. */
  ghost predicate CutAt<T>(r: Log<T>, c: nat, p: Ptr)
    requires Sized(r)
  {
    c < |r.mv| && CutOn(r.st[c], r.mv[c].t, p)
  }

  /** Some move after `i` and before state `j` cuts a walk for `p`. */
  ghost predicate CutBetween<T>(r: Log<T>, i: nat, j: nat, p: Ptr)
    requires Sized(r)
  {
    exists c :: i < c < j && CutAt(r, c, p)
  }

  /** Move `i` validates node `p` in slot `k`, which publishes it from then on up to state `j`. */
  ghost predicate ValidatedUpTo<T>(r: Log<T>, i: nat, j: nat, k: SlotId, p: Ptr)
    requires Sized(r)
  {
    && i < j < |r.st| && ValidatesNode(r.st[i], r.mv[i].t, k, p)
    && forall m :: i < m <= j ==> Publishes(r.st[m].slots, k, Some(p))
  }

  /** Safe as long as no walk was cut, and lost from the first cut on. */
  ghost predicate Decided<T>(r: Log<T>, i: nat, j: nat, k: SlotId, p: Ptr)
    requires Sized(r) && j < |r.st|
  {
    if CutBetween(r, i, j, p) then Lost(r.st[j], p) else Safe(r.st[j], k, p)
  }

  lemma DecidedStart<T>(r: Log<T>, n: nat, v: T, i: nat, k: SlotId, p: Ptr)
    requires IsRun(r, n, v) && i < |r.mv| && ValidatesNode(r.st[i], r.mv[i].t, k, p)
    ensures Decided(r, i, i + 1, k, p)
  {
    InvAt(r, n, v, i);
    assert Moved(r, i);
    ValidatedIsSafe(r.st[i], r.ch[i], r.mv[i].t, r.mv[i].c, k, p);
  }

  lemma CutsGrow<T>(r: Log<T>, i: nat, j: nat, p: Ptr)
    requires Sized(r) && i < j
    ensures CutBetween(r, i, j + 1, p) <==> CutBetween(r, i, j, p) || CutAt(r, j, p)
  {
    if c :| i < c < j && CutAt(r, c, p) {
      assert i < c < j + 1;
    }
  }

  /** A lost node stays lost, a safe one is lost by a cut and stays safe otherwise. */
  lemma FateStep<T>(s: State<T>, t: Tid, c: Choice<T>, k: SlotId, p: Ptr)
    requires Shape(s) && Locking(s) && t < |s.pcs| && Publishes(Step(s, t, c).slots, k, Some(p))
    ensures Lost(s, p) || CutOn(s, t, p) ==> Lost(Step(s, t, c), p)
    ensures Safe(s, k, p) && !CutOn(s, t, p) ==> Safe(Step(s, t, c), k, p)
  {
    if Lost(s, p) {
      LostStep(s, t, c, p);
    } else if CutOn(s, t, p) {
      CutLoses(s, t, c, p);
    }
    if Safe(s, k, p) && !CutOn(s, t, p) {
      SafeStep(s, t, c, k, p);
    }
  }

  lemma DecidedStep<T>(r: Log<T>, n: nat, v: T, i: nat, j: nat, k: SlotId, p: Ptr)
    requires IsRun(r, n, v) && i < j < |r.mv| && Decided(r, i, j, k, p) && Publishes(r.st[j + 1].slots, k, Some(p))
    ensures Decided(r, i, j + 1, k, p)
  {
    CutsGrow(r, i, j, p);
    InvAt(r, n, v, j);
    assert Moved(r, j);
    FateStep(r.st[j], r.mv[j].t, r.mv[j].c, k, p);
  }

  /**
  A node validated at line 88 or 97 and published ever since is safe exactly when no reclaimer's walk for
  it was cut; otherwise it is deleted or bound to be deleted.
  */
  lemma ValidatedSurvivesIff<T>(r: Log<T>, n: nat, v: T, i: nat, j: nat, k: SlotId, p: Ptr)
    requires IsRun(r, n, v) && ValidatedUpTo(r, i, j, k, p)
    ensures Safe(r.st[j], k, p) <==> !CutBetween(r, i, j, p)
    ensures Lost(r.st[j], p) <==> CutBetween(r, i, j, p)
  {
    DecidedStart(r, n, v, i, k, p);
    for m := i + 1 to j
      invariant Decided(r, i, m, k, p)
    {
      DecidedStep(r, n, v, i, m, k, p);
    }
    if Lost(r.st[j], p) {
      LostIsUnsafe(r.st[j], k, p);
    }
  }

  // ----- the dereferences of dequeue

  ghost predicate GuardsAt<T>(r: Log<T>, j: nat, t: Tid, k: SlotId, p: Ptr) {
    j < |r.st| && t < |r.st[j].pcs| && Guards(r.st[j].pcs[t], k, p)
  }

  lemma GuardShown<T>(r: Log<T>, n: nat, v: T, j: nat, t: Tid, k: SlotId, p: Ptr)
    requires IsRun(r, n, v) && GuardsAt(r, j, t, k, p)
    ensures Publishes(r.st[j].slots, k, Some(p)) && j > 0
  {
    InvAt(r, n, v, j);
    assert ThreadSlots(r.st[j].slots, t, r.st[j].pcs[t]);
    GuardPublishes(r.st[j].slots, t, r.st[j].pcs[t], k, p);
  }

  lemma GuardBefore<T>(r: Log<T>, n: nat, v: T, j: nat, t: Tid, k: SlotId, p: Ptr)
    requires IsRun(r, n, v) && j < |r.mv| && GuardsAt(r, j + 1, t, k, p)
    ensures GuardsAt(r, j, t, k, p) || (r.mv[j].t == t && ValidatesNode(r.st[j], t, k, p))
  {
    assert Moved(r, j);
    if r.mv[j].t == t {
      GuardOrigin(r.st[j], t, r.mv[j].c, k, p);
    }
  }

  /** The move that validated a guarded node, and its publication since then. */
  lemma {:induction false} GuardBegins<T>(r: Log<T>, n: nat, v: T, j: nat, t: Tid, k: SlotId, p: Ptr) returns (i: nat)
    requires IsRun(r, n, v) && GuardsAt(r, j, t, k, p)
    ensures ValidatedUpTo(r, i, j, k, p) && r.mv[i].t == t
    decreases j
  {
    GuardShown(r, n, v, j, t, k, p);
    if j > 0 {
      GuardBefore(r, n, v, j - 1, t, k, p);
      i := j - 1;
      if !(r.mv[i].t == t && ValidatesNode(r.st[i], t, k, p)) {
        i := GuardBegins(r, n, v, j - 1, t, k, p);
      }
    }
  }

  /** Thread `t` is about to read node `p`: at line 93 its `next`, at line 118 its `data`. */
  ghost predicate Reads<T>(pc: Pc<T>, p: Ptr) {
    pc.Deq? && ((pc.d.D93? && p == pc.d.ch) || (pc.d.D118? && p == pc.d.nxt))
  }

  ghost function SlotOf<T>(d: DeqPc<T>): SlotId
    requires d.D93? || d.D118?
  {
    if d.D93? then d.a else d.b
  }

  /**
  A node that dequeue dereferences was validated in an earlier move of that thread, and it is deleted only
  if a walk for it was cut since then; without a cut the dereference is safe.
  */
  lemma DereferencesAreLive<T>(r: Log<T>, n: nat, v: T, j: nat, t: Tid, p: Ptr) returns (i: nat)
    requires IsRun(r, n, v) && j < |r.st| && t < |r.st[j].pcs| && Reads(r.st[j].pcs[t], p)
    ensures i < j && r.mv[i].t == t && ValidatesNode(r.st[i], t, SlotOf(r.st[j].pcs[t].d), p)
    ensures p in r.st[j].bins.freed ==> CutBetween(r, i, j, p)
    ensures Lost(r.st[j], p) <==> CutBetween(r, i, j, p)
  {
    var k := SlotOf(r.st[j].pcs[t].d);
    i := GuardBegins(r, n, v, j, t, k, p);
    ValidatedSurvivesIff(r, n, v, i, j, k, p);
  }

  // ----- which reclaimer loses a node

  /** Move `j` claims node `p`. */
  ghost predicate ClaimsAt<T>(r: Log<T>, j: nat, p: Ptr)
    requires Sized(r)
  {
    && j < |r.mv| && r.ef[j].Claim?
    && r.ef[j].i < |r.st[j].bins.global| && r.st[j].bins.global[r.ef[j].i] == p
  }

  ghost predicate Threatens<T>(s: State<T>, u: Tid, k: SlotId, p: Ptr) {
    u < |s.pcs| && Threat(s.bins, s.pcs[u], k, p)
  }

  lemma ThreatNeedsCut<T>(r: Log<T>, n: nat, v: T, m: nat, u: Tid, k: SlotId, p: Ptr)
    requires IsRun(r, n, v) && m < |r.mv| && Publishes(r.st[m].slots, k, Some(p))
    requires !Threatens(r.st[m], u, k, p) && Threatens(r.st[m + 1], u, k, p)
    ensures r.mv[m].t == u && CutAt(r, m, p)
  {
    InvAt(r, n, v, m);
    assert Moved(r, m);
    var s, t, c := r.st[m], r.mv[m].t, r.mv[m].c;
    if t != u {
      OtherReclaimer(s, t, c, u, k, p);
    } else if !CutOn(s, t, p) {
      assert CursorOk(s, s.pcs[t]);
      ActorNoThreat(s, t, c, k, p);
    }
  }

  /** A reclaimer that claims a validated and still published node has itself had its walk for it cut. */
  lemma ClaimNeedsCut<T>(r: Log<T>, n: nat, v: T, i: nat, j: nat, k: SlotId, p: Ptr) returns (c: nat)
    requires IsRun(r, n, v) && ValidatedUpTo(r, i, j, k, p) && ClaimsAt(r, j, p)
    ensures i < c < j && r.mv[c].t == r.mv[j].t && CutAt(r, c, p)
  {
    var u := r.mv[j].t;
    DecidedStart(r, n, v, i, k, p);
    assert Moved(r, j);
    assert Threatens(r.st[j], u, k, p) by {
      ClaimIsThreat(r.st[j], u, r.mv[j].c, k, p);
    }
    c := i + 1;
    assert !Threatens(r.st[c], u, k, p);
    while !Threatens(r.st[c + 1], u, k, p)
      invariant i < c < j && !Threatens(r.st[c], u, k, p)
      decreases j - c
    {
      c := c + 1;
    }
    ThreatNeedsCut(r, n, v, c, u, k, p);
  }

  lemma ClaimIsThreat<T>(s: State<T>, u: Tid, c: Choice<T>, k: SlotId, p: Ptr)
    requires u < |s.pcs| && Micro(s, u, c).1.Claim?
    requires Micro(s, u, c).1.i < |s.bins.global| && s.bins.global[Micro(s, u, c).1.i] == p
    ensures Threatens(s, u, k, p)
  {
    if s.pcs[u].Deq? {
      DequeueLeavesBins(s, s.pcs[u].d, c.Spurious?);
    }
  }

  /** A reclaimer is past its last slot for node `p`. */
  ghost predicate AtEnd<T>(s: State<T>, u: Tid, p: Ptr) {
    && u < |s.pcs| && s.pcs[u].Scan? && s.pcs[u].s.S151? && s.pcs[u].s.c == 0
    && s.pcs[u].s.i < |s.bins.global| && s.bins.global[s.pcs[u].s.i] == p
  }

  lemma EndStays<T>(s: State<T>, t: Tid, c: Choice<T>, u: Tid, p: Ptr)
    requires Shape(s) && Locking(s) && t < |s.pcs| && u != t && AtEnd(s, u, p)
    ensures AtEnd(Step(s, t, c), u, p)
  {
    MicroHandles(s, t, c);
    assert HoldsLock(s.pcs[u]) && !HoldsLock(s.pcs[t]);
  }

  /** After a cut the reclaimer's next move claims the node, whatever the slots publish. */
  lemma CutMeansClaim<T>(r: Log<T>, n: nat, v: T, c: nat, j: nat, p: Ptr)
    requires IsRun(r, n, v) && CutAt(r, c, p) && c < j < |r.mv| && r.mv[j].t == r.mv[c].t
    requires forall m :: c < m < j ==> r.mv[m].t != r.mv[c].t
    ensures ClaimsAt(r, j, p)
  {
    var u := r.mv[c].t;
    assert Moved(r, c);
    for m := c + 1 to j
      invariant AtEnd(r.st[m], u, p)
    {
      InvAt(r, n, v, m);
      assert Moved(r, m);
      EndStays(r.st[m], r.mv[m].t, r.mv[m].c, u, p);
    }
    InvAt(r, n, v, j);
    assert Moved(r, j) && CursorOk(r.st[j], r.st[j].pcs[u]);
  }

  // ----- when no walk is ever cut

  /** Two slots per thread exist and are linked. */
  ghost predicate Saturated<T>(s: State<T>) {
    |s.slots| == 2 * |s.pcs| && !s.list.half
  }

  lemma SaturatedStep<T>(s: State<T>, t: Tid, c: Choice<T>)
    requires InvSlots(s) && t < |s.pcs| && Saturated(s)
    ensures Saturated(Step(s, t, c))
  {
    SlotBound(s, t, c);
  }

  lemma StaysSaturated<T>(r: Log<T>, n: nat, v: T, i: nat, j: nat)
    requires IsRun(r, n, v) && i <= j < |r.st| && Saturated(r.st[i])
    ensures Saturated(r.st[j])
  {
    for m := i to j
      invariant Saturated(r.st[m])
    {
      InvAt(r, n, v, m);
      assert Moved(r, m);
      SaturatedStep(r.st[m], r.mv[m].t, r.mv[m].c);
    }
  }

  /** Once two slots per thread exist, every node validated from then on is safe while it is published. */
  lemma SafeOnceSaturated<T>(r: Log<T>, n: nat, v: T, i: nat, m: nat, j: nat, k: SlotId, p: Ptr)
    requires IsRun(r, n, v) && i <= m && ValidatedUpTo(r, m, j, k, p) && Saturated(r.st[i])
    ensures Safe(r.st[j], k, p) && p !in r.st[j].bins.freed
  {
    ValidatedSurvivesIff(r, n, v, m, j, k, p);
    if CutBetween(r, m, j, p) {
      var c :| m < c < j && CutAt(r, c, p);
      StaysSaturated(r, n, v, i, c);
      assert false;
    }
  }

  /** Past line 82 of dequeue, with both slots in hand and none of them being linked. */
  predicate HoldsBoth<T>(pc: Pc<T>) {
    HeldBy(pc) == 2 && !Walks(pc)
  }

  /** As soon as all threads have been inside dequeue at once, two slots per thread exist. */
  lemma AllInsideSaturates<T>(r: Log<T>, n: nat, v: T, i: nat)
    requires IsRun(r, n, v) && i < |r.st| && forall t :: 0 <= t < |r.st[i].pcs| ==> HoldsBoth(r.st[i].pcs[t])
    ensures Saturated(r.st[i])
  {
    InvAt(r, n, v, i);
    var s := r.st[i];
    TotalUniform(s.pcs, HeldBy, 2);
    TotalAtMost(s.slots, InUse, 1);
  }
}
