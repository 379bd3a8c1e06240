/**
Ownership of the hazard slots: each dequeue holds its two slots alone, a slot publishes what its
holder last stored, and there are never more than two slots per thread, although an acquire may miss a
slot that is given back while it walks.
*/
module SlotInvariant {
  import opened Wrappers
  import opened Machine
  import opened Sums

  ghost predicate Owned(slots: seq<Slot>, t: Tid, k: SlotId) {
    k < |slots| && slots[k].owner == Some(t)
  }

  ghost predicate Pair(slots: seq<Slot>, t: Tid, a: SlotId, b: SlotId) {
    Owned(slots, t, a) && Owned(slots, t, b) && a != b
  }

  ghost predicate Publishes(slots: seq<Slot>, k: SlotId, p: Option<Ptr>) {
    k < |slots| && slots[k].ptr == p
  }

  ghost predicate DeqSlots<T>(slots: seq<Slot>, t: Tid, d: DeqPc<T>) {
    match d
    case D81 => true
    case D82(a) => Owned(slots, t, a)
    case Acquiring(first, w) =>
      && (first.Some? ==> Owned(slots, t, first.value))
      && (w.A133? ==> Owned(slots, t, w.k) && first != Some(w.k))
    case D85(a, b) => Pair(slots, t, a, b)
    case D86(a, b, _) => Pair(slots, t, a, b)
    case D88(a, b, ch) => Pair(slots, t, a, b) && Publishes(slots, a, Some(ch))
    case D92(a, b, ch) => Pair(slots, t, a, b) && Publishes(slots, a, Some(ch))
    case D93(a, b, ch, _) => Pair(slots, t, a, b) && Publishes(slots, a, Some(ch))
    case D94(a, b, ch, _, _) => Pair(slots, t, a, b) && Publishes(slots, a, Some(ch))
    case D97(a, b, ch, _, nx) => Pair(slots, t, a, b) && Publishes(slots, a, Some(ch)) && Publishes(slots, b, nx)
    case D110(a, b, ch, _, nxt) =>
      Pair(slots, t, a, b) && Publishes(slots, a, Some(ch)) && Publishes(slots, b, Some(nxt))
    case D115(a, b, ch, _, nxt) =>
      Pair(slots, t, a, b) && Publishes(slots, a, Some(ch)) && Publishes(slots, b, Some(nxt))
    case D118(a, b, ch, nxt) =>
      Pair(slots, t, a, b) && Publishes(slots, a, Some(ch)) && Publishes(slots, b, Some(nxt))
    case Releasing(todo, cleared, _) =>
      && |todo| <= 2
      && (|todo| == 2 ==> Pair(slots, t, todo[0], todo[1]))
      && (|todo| == 1 ==> Owned(slots, t, todo[0]))
      && (cleared ==> |todo| > 0 && Publishes(slots, todo[0], None))
    case Returning(_) => true
  }

  ghost predicate ThreadSlots<T>(slots: seq<Slot>, t: Tid, pc: Pc<T>) {
    pc.Deq? ==> DeqSlots(slots, t, pc.d)
  }

  /** How many slots a thread holds. */
  function HeldBy<T>(pc: Pc<T>): int {
    if !pc.Deq? || pc.d.D81? || pc.d.Returning? then 0
    else if pc.d.D82? then 1
    else if pc.d.Acquiring? then (if pc.d.first.Some? then 1 else 0) + (if pc.d.w.A133? then 1 else 0)
    else if pc.d.Releasing? then |pc.d.todo|
    else 2
  }

  function InUse(s: Slot): int {
    if s.owner.None? then 0 else 1
  }

  /** Inside acquire with the mutex of the slot list. */
  predicate Walks<T>(pc: Pc<T>) {
    pc.Deq? && pc.d.Acquiring?
  }

  ghost predicate FreeBelow(slots: seq<Slot>, c: nat) {
    exists f :: 0 <= f < c && f < |slots| && slots[f].owner.None?
  }

  /** With all `2 * n` slots there, an acquire still has a free slot ahead of it. */
  ghost predicate WalkOk(slots: seq<Slot>, n: nat, w: AcqPc) {
    match w
    case A121(c) => c <= |slots| && (|slots| == 2 * n ==> FreeBelow(slots, c))
    case A133(k) => k + 1 == |slots|
  }

  /** Exactly the mutex holder walks, and the newest slot is unlinked exactly while it is at line 133. */
  ghost predicate Listing<T>(s: State<T>) {
    && (forall t :: 0 <= t < |s.pcs| ==> (Walks(s.pcs[t]) <==> s.list.lock == Some(t)))
    && (forall t :: 0 <= t < |s.pcs| && Walks(s.pcs[t]) ==>
          WalkOk(s.slots, |s.pcs|, s.pcs[t].d.w) && (s.list.half <==> s.pcs[t].d.w.A133?))
    && (s.list.lock.None? ==> !s.list.half)
    && (s.list.lock.Some? ==> s.list.lock.value < |s.pcs|)
  }

  ghost predicate InvSlots<T>(s: State<T>) {
    && (forall k :: 0 <= k < |s.slots| && s.slots[k].owner.None? ==> s.slots[k].ptr.None?)
    && (forall t :: 0 <= t < |s.pcs| ==> ThreadSlots(s.slots, t, s.pcs[t]))
    && Total(s.slots, InUse) == Total(s.pcs, HeldBy)
    && |s.slots| <= 2 * |s.pcs|
    && Listing(s)
  }

  /** A step of `t` may change only slots that are free or its own. */
  ghost predicate SparesOthers(slots: seq<Slot>, slots': seq<Slot>, t: Tid) {
    && |slots| <= |slots'|
    && forall k :: 0 <= k < |slots| && slots[k].owner.Some? && slots[k].owner != Some(t) ==> slots'[k] == slots[k]
  }

  ghost predicate SlotEffectOk<T>(slots: seq<Slot>, t: Tid, e: Effect<T>) {
    match e
    case Own(k) => k < |slots| && slots[k].owner.None?
    case Publish(k, _) => Owned(slots, t, k)
    case Disown(k) => Owned(slots, t, k) && Publishes(slots, k, None)
    case _ => true
  }

  lemma EffectSparesOthers<T>(slots: seq<Slot>, t: Tid, e: Effect<T>)
    requires SlotEffectOk(slots, t, e)
    requires forall k :: 0 <= k < |slots| && slots[k].owner.None? ==> slots[k].ptr.None?
    ensures var slots' := ApplySlots(slots, t, e);
      && SparesOthers(slots, slots', t)
      && (forall k :: 0 <= k < |slots'| && slots'[k].owner.None? ==> slots'[k].ptr.None?)
  {
  }

  /** The number of slots in use follows acquire and release. */
  lemma EffectOnUse<T>(slots: seq<Slot>, t: Tid, e: Effect<T>)
    requires SlotEffectOk(slots, t, e)
    ensures Total(ApplySlots(slots, t, e), InUse) ==
            Total(slots, InUse) + (if e.Own? || e.Grow? then 1 else if e.Disown? then -1 else 0)
  {
    match e
    case Own(k) => TotalUpdate(slots, k, slots[k].(owner := Some(t)), InUse);
    case Grow => TotalAppend(slots, Slot(None, Some(t)), InUse);
    case Publish(k, p) => TotalUpdate(slots, k, slots[k].(ptr := p), InUse);
    case Disown(k) => TotalUpdate(slots, k, slots[k].(owner := None), InUse);
    case _ =>
  }

  ghost predicate SlotStep<T>(slots: seq<Slot>, t: Tid, pc: Pc<T>, pc': Pc<T>, e: Effect<T>) {
    && SlotEffectOk(slots, t, e)
    && ThreadSlots(ApplySlots(slots, t, e), t, pc')
    && HeldBy(pc') == HeldBy(pc) + (if e.Own? || e.Grow? then 1 else if e.Disown? then -1 else 0)
  }

  lemma AcquireStep<T>(s: State<T>, t: Tid, d: DeqPc<T>, spurious: bool)
    requires DeqSlots(s.slots, t, d) && (d.D81? || d.D82? || d.Acquiring?)
    ensures var (pc', e) := StepDequeue(s, d, spurious); SlotStep(s.slots, t, Deq(d), pc', e)
  {
  }

  lemma ReadHeadStep<T>(s: State<T>, t: Tid, d: DeqPc<T>, spurious: bool)
    requires DeqSlots(s.slots, t, d) && (d.D85? || d.D86? || d.D88? || d.D92? || d.D93?)
    ensures var (pc', e) := StepDequeue(s, d, spurious); SlotStep(s.slots, t, Deq(d), pc', e)
  {
  }

  lemma ReadNextStep<T>(s: State<T>, t: Tid, d: DeqPc<T>, spurious: bool)
    requires DeqSlots(s.slots, t, d) && (d.D94? || d.D97?)
    ensures var (pc', e) := StepDequeue(s, d, spurious); SlotStep(s.slots, t, Deq(d), pc', e)
  {
  }

  lemma SwingStep<T>(s: State<T>, t: Tid, d: DeqPc<T>, spurious: bool)
    requires DeqSlots(s.slots, t, d) && (d.D110? || d.D115? || d.D118? || d.Returning?)
    ensures var (pc', e) := StepDequeue(s, d, spurious); SlotStep(s.slots, t, Deq(d), pc', e)
  {
  }

  lemma ReleaseStep<T>(s: State<T>, t: Tid, d: DeqPc<T>, spurious: bool)
    requires DeqSlots(s.slots, t, d) && d.Releasing?
    ensures var (pc', e) := StepDequeue(s, d, spurious); SlotStep(s.slots, t, Deq(d), pc', e)
  {
  }

  lemma RetireStep<T>(s: State<T>, t: Tid, v: T, r: RetPc)
    ensures var (pc', e) := StepRetire(s.bins, t, v, r); SlotStep(s.slots, t, Ret(v, r), pc', e)
  {
  }

  lemma ScanStep<T>(s: State<T>, t: Tid, p: ScanPc)
    ensures var (pc', e) := StepScan(s, p); SlotStep(s.slots, t, Scan(p), pc', e)
  {
  }

  lemma MicroSlots<T>(s: State<T>, t: Tid, c: Choice<T>)
    requires t < |s.pcs| && ThreadSlots(s.slots, t, s.pcs[t])
    ensures SlotStep(s.slots, t, s.pcs[t], Micro(s, t, c).0, Micro(s, t, c).1)
  {
    match s.pcs[t]
    case Idle =>
    case Enq(_) =>
    case Deq(d) =>
      if d.D81? || d.D82? || d.Acquiring? {
        AcquireStep(s, t, d, c.Spurious?);
      } else if d.Releasing? {
        ReleaseStep(s, t, d, c.Spurious?);
      } else if d.D85? || d.D86? || d.D88? || d.D92? || d.D93? {
        ReadHeadStep(s, t, d, c.Spurious?);
      } else if d.D94? || d.D97? {
        ReadNextStep(s, t, d, c.Spurious?);
      } else {
        SwingStep(s, t, d, c.Spurious?);
      }
    case Ret(v, r) => RetireStep(s, t, v, r);
    case Scan(p) => ScanStep(s, t, p);
  }

  /** A slot is created only by an acquire that found every slot owned, so never beyond two per thread. */
  lemma SlotBound<T>(s: State<T>, t: Tid, c: Choice<T>)
    requires InvSlots(s) && t < |s.pcs|
    ensures |Step(s, t, c).slots| <= 2 * |s.pcs|
    ensures Micro(s, t, c).1.Grow? ==> |s.slots| < 2 * |s.pcs|
  {
    if Micro(s, t, c).1.Grow? {
      GrowsAtEnd(s, t, c);
      assert WalkOk(s.slots, |s.pcs|, s.pcs[t].d.w);
    }
  }

  lemma GrowsAtEnd<T>(s: State<T>, t: Tid, c: Choice<T>)
    requires t < |s.pcs| && Micro(s, t, c).1.Grow?
    ensures Walks(s.pcs[t]) && s.pcs[t].d.w == A121(0)
  {
  }

  /** An acquire that gets the mutex when all `2 * n` slots exist finds a free one. */
  lemma SomeFree<T>(s: State<T>, t: Tid)
    requires InvSlots(s) && t < |s.pcs| && HeldBy(s.pcs[t]) <= 1 && |s.slots| == 2 * |s.pcs|
    ensures FreeBelow(s.slots, |s.slots|)
  {
    if forall k :: 0 <= k < |s.slots| ==> s.slots[k].owner.Some? {
      TotalUniform(s.slots, InUse, 1);
      HeldAtMostTwo(s, t);
      assert false;
    }
  }

  lemma {:induction false} TotalAtMost<P>(ps: seq<P>, w: P -> int, m: int)
    requires forall i :: 0 <= i < |ps| ==> w(ps[i]) <= m
    ensures Total(ps, w) <= m * |ps|
  {
    if |ps| > 0 {
      TotalAtMost(ps[..|ps| - 1], w, m);
    }
  }

  lemma HeldAtMostTwo<T>(s: State<T>, t: Tid)
    requires InvSlots(s) && t < |s.pcs|
    ensures Total(s.pcs, HeldBy) <= 2 * |s.pcs| - 2 + HeldBy(s.pcs[t])
  {
    var full := s.pcs[t := Deq(D85(0, 0))];
    forall u | 0 <= u < |full| ensures HeldBy(full[u]) <= 2 {
      assert u != t ==> ThreadSlots(s.slots, u, s.pcs[u]);
    }
    TotalAtMost(full, HeldBy, 2);
    TotalUpdate(s.pcs, t, Deq(D85(0, 0)), HeldBy);
  }

  lemma OthersKeepSlots<T>(slots: seq<Slot>, slots': seq<Slot>, t: Tid, u: Tid, pc: Pc<T>)
    requires SparesOthers(slots, slots', t) && u != t && ThreadSlots(slots, u, pc)
    ensures ThreadSlots(slots', u, pc)
  {
  }

  // ----- the mutex of the slot list

  /** The mutex is taken only when free, and slots are taken or created only by its holder. */
  ghost predicate ListMove<T>(l: SlotList, e: Effect<T>, walks: bool, walks': bool) {
    match e
    case LockList => !walks && walks' && l.lock == None
    case Own(_) => walks && !walks'
    case Grow => walks && walks'
    case Join => walks && !walks'
    case _ => walks' == walks
  }

  lemma MicroLists<T>(s: State<T>, t: Tid, c: Choice<T>)
    requires t < |s.pcs|
    ensures ListMove(s.list, Micro(s, t, c).1, Walks(s.pcs[t]), Walks(Micro(s, t, c).0))
  {
  }

  /** Only an acquire walks, from the mutex on. */
  lemma WalkOrigin<T>(s: State<T>, t: Tid, c: Choice<T>)
    requires t < |s.pcs| && Walks(Micro(s, t, c).0)
    ensures s.pcs[t].Deq? && (s.pcs[t].d.D81? || s.pcs[t].d.D82? || s.pcs[t].d.Acquiring?)
  {
  }

  /** One slot further down, past an owned one. */
  lemma WalkGoesOn<T>(slots: seq<Slot>, n: nat, first: Option<SlotId>, w: AcqPc, l: SlotList, t: Tid)
    requires WalkOk(slots, n, w) && |slots| <= 2 * n && (l.half <==> w.A133?)
    ensures var (pc', e) := StepAcquire<T>(slots, first, w);
      Walks(pc') ==>
        WalkOk(ApplySlots(slots, t, e), n, pc'.d.w) && (ApplyList(l, t, e).half <==> pc'.d.w.A133?)
  {
  }

  lemma ActorWalks<T>(s: State<T>, t: Tid, c: Choice<T>)
    requires InvSlots(s) && t < |s.pcs| && Walks(Micro(s, t, c).0)
    ensures var s', w := Step(s, t, c), Micro(s, t, c).0.d.w;
      WalkOk(s'.slots, |s.pcs|, w) && (s'.list.half <==> w.A133?)
  {
    WalkOrigin(s, t, c);
    var d := s.pcs[t].d;
    if d.Acquiring? {
      assert Walks(s.pcs[t]);
      WalkGoesOn<T>(s.slots, |s.pcs|, d.first, d.w, s.list, t);
    } else {
      assert s.list.lock.None?;
      if |s.slots| == 2 * |s.pcs| {
        SomeFree(s, t);
      }
    }
  }

  /** While a thread walks, the others create no slot, take none and leave the free ones free. */
  lemma OtherWalks<T>(s: State<T>, t: Tid, c: Choice<T>, u: Tid)
    requires InvSlots(s) && t < |s.pcs| && u < |s.pcs| && u != t && Walks(s.pcs[u])
    requires SlotEffectOk(s.slots, t, Micro(s, t, c).1)
    ensures var s' := Step(s, t, c);
      WalkOk(s'.slots, |s'.pcs|, s.pcs[u].d.w) && (s'.list.half <==> s.pcs[u].d.w.A133?)
  {
    MicroLists(s, t, c);
    assert !Walks(s.pcs[t]);
    OthersLeaveFree(s.slots, t, Micro(s, t, c).1, s.pcs[u].d.w, |s.pcs|);
  }

  lemma OthersLeaveFree<T>(slots: seq<Slot>, t: Tid, e: Effect<T>, w: AcqPc, n: nat)
    requires SlotEffectOk(slots, t, e) && !e.Own? && !e.Grow? && WalkOk(slots, n, w)
    ensures WalkOk(ApplySlots(slots, t, e), n, w)
  {
    var slots' := ApplySlots(slots, t, e);
    if w.A121? && |slots| == 2 * n {
      var f :| 0 <= f < w.c && f < |slots| && slots[f].owner.None?;
      assert slots'[f].owner.None?;
    }
  }

  lemma StepKeepsListing<T>(s: State<T>, t: Tid, c: Choice<T>)
    requires InvSlots(s) && t < |s.pcs| && SlotEffectOk(s.slots, t, Micro(s, t, c).1)
    ensures Listing(Step(s, t, c))
  {
    var s' := Step(s, t, c);
    MicroLists(s, t, c);
    assert Walks(s.pcs[t]) <==> s.list.lock == Some(t);
    forall u | 0 <= u < |s.pcs| && Walks(s'.pcs[u])
      ensures WalkOk(s'.slots, |s'.pcs|, s'.pcs[u].d.w) && (s'.list.half <==> s'.pcs[u].d.w.A133?)
    {
      if u == t {
        ActorWalks(s, t, c);
      } else {
        OtherWalks(s, t, c, u);
      }
    }
  }

  lemma StepKeepsSlots<T>(s: State<T>, t: Tid, c: Choice<T>)
    requires InvSlots(s) && t < |s.pcs|
    ensures InvSlots(Step(s, t, c)) && SparesOthers(s.slots, Step(s, t, c).slots, t)
  {
    var pc', e := Micro(s, t, c).0, Micro(s, t, c).1;
    var s' := Step(s, t, c);
    MicroSlots(s, t, c);
    EffectSparesOthers(s.slots, t, e);
    EffectOnUse(s.slots, t, e);
    TotalUpdate(s.pcs, t, pc', HeldBy);
    SlotBound(s, t, c);
    StepKeepsListing(s, t, c);
    forall u | 0 <= u < |s.pcs| && u != t ensures ThreadSlots(s'.slots, u, s'.pcs[u]) {
      OthersKeepSlots(s.slots, s'.slots, t, u, s.pcs[u]);
    }
  }

  lemma InitSlots<T>(n: nat, v: T)
    ensures InvSlots(Init(n, v))
  {
    TotalUniform(Init(n, v).pcs, HeldBy, 0);
  }
}
