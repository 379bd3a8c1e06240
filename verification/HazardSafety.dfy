/**
Hazard-pointer safety, as far as the code provides it. isProtected walks the slots without the mutex that
guards their list, and acquire makes a new slot the head of the list (line 132) before it stores that slot's
`next_` (line 133). A walk that reads `next_` in between ends there: it is cut, and skips every older slot.
A node that a dequeuer has validated and still publishes is lost exactly when a walk for it is cut.
*/
module HazardSafety {
  import opened Wrappers
  import opened Machine
  import opened Sums
  import opened ChainInvariant
  import opened SlotInvariant
  import opened RetireInvariant

  /** A reclaimer that will delete `p` without looking at slot `k` again. */
  ghost predicate Threat<T>(b: Bins, pc: Pc<T>, k: SlotId, p: Ptr) {
    && pc.Scan?
    && match pc.s
      case S179(_, claimed) => p in claimed
      case S151(i, c, claimed) => p in claimed || (i < |b.global| && b.global[i] == p && c <= k)
      case S154(i, c, claimed) => p in claimed || (i < |b.global| && b.global[i] == p && c <= k + 1)
      case S189(claimed) => p in claimed
      case _ => false
  }

  /** Published in slot `k`, not deleted, and no reclaimer has slipped past that slot. */
  ghost predicate Safe<T>(s: State<T>, k: SlotId, p: Ptr) {
    && Publishes(s.slots, k, Some(p))
    && p !in s.bins.freed
    && forall u :: 0 <= u < |s.pcs| ==> !Threat(s.bins, s.pcs[u], k, p)
  }

  /** A reclaimer that has claimed `p` or is about to, with no slot left to look at. */
  ghost predicate Committed<T>(b: Bins, pc: Pc<T>, p: Ptr) {
    && pc.Scan?
    && match pc.s
      case S179(_, claimed) => p in claimed
      case S151(i, c, claimed) => p in claimed || (i < |b.global| && b.global[i] == p && c == 0)
      case S154(_, _, claimed) => p in claimed
      case S189(claimed) => p in claimed
      case _ => false
  }

  /** Deleted, or bound to be deleted whatever the slots publish. */
  ghost predicate Lost<T>(s: State<T>, p: Ptr) {
    p in s.bins.freed || exists u :: 0 <= u < |s.pcs| && Committed(s.bins, s.pcs[u], p)
  }

  /** The next step of thread `u` cuts its walk for `p`: it reads the `next_` that line 133 has not stored yet. */
  ghost predicate CutOn<T>(s: State<T>, u: Tid, p: Ptr) {
    && u < |s.pcs| && s.pcs[u].Scan? && s.pcs[u].s.S154?
    && var q := s.pcs[u].s;
      s.list.half && q.c == |s.slots| > 1 && q.i < |s.bins.global| && s.bins.global[q.i] == p
  }

  /** The invariant of the whole machine. */
  ghost predicate Inv<T>(s: State<T>, a: Chain) {
    InvChain(s, a) && InvSlots(s) && InvBins(s, a)
  }

  /** A published node that is not retired is safe: this is what re-reading head establishes. */
  lemma UnretiredIsSafe<T>(s: State<T>, a: Chain, k: SlotId, p: Ptr)
    requires ChainOk(s.core, a) && Conserved(s, a) && Publishes(s.slots, k, Some(p))
    requires p in a.rank && a.rank[p] >= a.rank[s.core.head]
    ensures Safe(s, k, p)
  {
    NotRetired(s, a, p);
    assert p !in multiset(s.bins.freed) && p !in multiset(s.bins.global);
    forall u | 0 <= u < |s.pcs| ensures !Threat(s.bins, s.pcs[u], k, p) {
      BagContains(s.pcs, u, Waiting);
      assert p !in multiset(Waits(s.pcs[u]));
      if Threat(s.bins, s.pcs[u], k, p) {
        ThreatIsRetired(s.bins, s.pcs[u], k, p);
      }
    }
  }

  lemma ThreatIsRetired<T>(b: Bins, pc: Pc<T>, k: SlotId, p: Ptr)
    requires Threat(b, pc, k, p)
    ensures p in Waits(pc) || p in b.global
  {
  }

  // ----- what keeps a published node safe

  /** The scanner's own step: unless its walk is cut it cannot pass a slot that publishes the node it examines. */
  lemma ScannerNoThreat<T>(s: State<T>, u: Tid, k: SlotId, x: Ptr)
    requires u < |s.pcs| && s.pcs[u].Scan? && Publishes(s.slots, k, Some(x)) && CursorOk(s, s.pcs[u])
    requires !Threat(s.bins, s.pcs[u], k, x) && !CutOn(s, u, x)
    ensures var (pc', e) := StepScan(s, s.pcs[u].s);
      !Threat(ApplyBins(s.bins, u, e), pc', k, x) && (e.Free? ==> e.x != x)
  {
  }

  lemma ActorNoThreat<T>(s: State<T>, t: Tid, c: Choice<T>, k: SlotId, p: Ptr)
    requires t < |s.pcs| && Publishes(s.slots, k, Some(p)) && CursorOk(s, s.pcs[t])
    requires !Threat(s.bins, s.pcs[t], k, p) && !CutOn(s, t, p)
    ensures var (pc', e) := Micro(s, t, c);
      !Threat(ApplyBins(s.bins, t, e), pc', k, p) && (e.Free? ==> e.x != p)
  {
    match s.pcs[t]
    case Idle =>
    case Enq(_) =>
    case Deq(d) => DequeueLeavesBins(s, d, c.Spurious?);
    case Ret(_, _) =>
    case Scan(_) => ScannerNoThreat(s, t, k, p);
  }

  /** What a reclaimer has in hand or is examining is not changed by the steps of the others. */
  lemma OtherReclaimer<T>(s: State<T>, t: Tid, c: Choice<T>, u: Tid, k: SlotId, p: Ptr)
    requires Shape(s) && Locking(s) && t < |s.pcs| && u < |s.pcs| && u != t
    ensures var b' := ApplyBins(s.bins, t, Micro(s, t, c).1);
      && (Threat(b', s.pcs[u], k, p) <==> Threat(s.bins, s.pcs[u], k, p))
      && (Committed(b', s.pcs[u], p) <==> Committed(s.bins, s.pcs[u], p))
  {
    MicroHandles(s, t, c);
    if HoldsLock(s.pcs[u]) {
      assert !HoldsLock(s.pcs[t]);
    }
  }

  /** A safe node stays safe under every step that leaves its slot alone and does not cut a walk for it. */
  lemma SafeStep<T>(s: State<T>, t: Tid, c: Choice<T>, k: SlotId, p: Ptr)
    requires Shape(s) && Locking(s) && t < |s.pcs| && Safe(s, k, p) && !CutOn(s, t, p)
    requires Publishes(Step(s, t, c).slots, k, Some(p))
    ensures Safe(Step(s, t, c), k, p)
  {
    var s' := Step(s, t, c);
    assert CursorOk(s, s.pcs[t]) && !Threat(s.bins, s.pcs[t], k, p);
    ActorNoThreat(s, t, c, k, p);
    forall u | 0 <= u < |s.pcs| && u != t ensures !Threat(s'.bins, s'.pcs[u], k, p) {
      assert !Threat(s.bins, s.pcs[u], k, p);
      OtherReclaimer(s, t, c, u, k, p);
    }
  }

  // ----- what loses it

  lemma LostIsUnsafe<T>(s: State<T>, k: SlotId, p: Ptr)
    requires Lost(s, p)
    ensures !Safe(s, k, p)
  {
    if p !in s.bins.freed {
      var u :| 0 <= u < |s.pcs| && Committed(s.bins, s.pcs[u], p);
      assert Threat(s.bins, s.pcs[u], k, p);
    }
  }

  /** A cut walk ends in front of a claim. */
  lemma CutLoses<T>(s: State<T>, t: Tid, c: Choice<T>, p: Ptr)
    requires CutOn(s, t, p)
    ensures Lost(Step(s, t, c), p)
  {
    var s' := Step(s, t, c);
    assert Committed(s'.bins, s'.pcs[t], p);
  }

  lemma ActorStaysCommitted<T>(s: State<T>, t: Tid, c: Choice<T>, p: Ptr)
    requires t < |s.pcs| && CursorOk(s, s.pcs[t]) && Committed(s.bins, s.pcs[t], p)
    ensures var (pc', e) := Micro(s, t, c);
      Committed(ApplyBins(s.bins, t, e), pc', p) || p in ApplyBins(s.bins, t, e).freed
  {
  }

  /** What is lost stays lost. */
  lemma LostStep<T>(s: State<T>, t: Tid, c: Choice<T>, p: Ptr)
    requires Shape(s) && Locking(s) && t < |s.pcs| && Lost(s, p)
    ensures Lost(Step(s, t, c), p)
  {
    var s' := Step(s, t, c);
    if p in s.bins.freed {
      assert p in s'.bins.freed;
    } else {
      var u :| 0 <= u < |s.pcs| && Committed(s.bins, s.pcs[u], p);
      if u == t {
        assert CursorOk(s, s.pcs[t]);
        ActorStaysCommitted(s, t, c, p);
        assert Committed(s'.bins, s'.pcs[t], p) || p in s'.bins.freed;
      } else {
        OtherReclaimer(s, t, c, u, 0, p);
        assert Committed(s'.bins, s'.pcs[u], p);
      }
    }
  }

  // ----- validation

  predicate Validates<T>(pc: Pc<T>) {
    pc.Deq? && (pc.d.D88? || pc.d.D97?)
  }

  /** The next step of thread `t` passes the re-check of line 88 or 97 with node `p` published in slot `k`. */
  ghost predicate ValidatesNode<T>(s: State<T>, t: Tid, k: SlotId, p: Ptr) {
    && t < |s.pcs| && Validates(s.pcs[t])
    && var d := s.pcs[t].d;
      && s.core.head == d.ch
      && ((k == d.a && p == d.ch) || (d.D97? && k == d.b && d.nx == Some(p)))
  }

  /** Lines 88 and 97: head still equals curr_head, so curr_head and its successor are not retired. */
  lemma ValidatedIsSafe<T>(s: State<T>, a: Chain, t: Tid, c: Choice<T>, k: SlotId, p: Ptr)
    requires Inv(s, a) && ValidatesNode(s, t, k, p)
    ensures Safe(Step(s, t, c), k, p)
  {
    StepKeepsChain(s, a, t, c);
    StepKeepsSlots(s, t, c);
    StepKeepsBins(s, a, t, c);
    assert ThreadSlots(s.slots, t, s.pcs[t]) && ThreadOk(s.core, a, s.pcs[t]);
    UnretiredIsSafe(Step(s, t, c), a, k, p);
  }

  /** The rest of the dequeue may dereference node `p`, which it published in slot `k` and validated. */
  ghost predicate Guards<T>(pc: Pc<T>, k: SlotId, p: Ptr) {
    && pc.Deq?
    && match pc.d
      case D92(a, _, ch) => k == a && p == ch
      case D93(a, _, ch, _) => k == a && p == ch
      case D94(a, _, ch, _, _) => k == a && p == ch
      case D97(a, _, ch, _, _) => k == a && p == ch
      case D110(a, b, ch, _, nxt) => (k == a && p == ch) || (k == b && p == nxt)
      case D115(a, b, ch, _, nxt) => (k == a && p == ch) || (k == b && p == nxt)
      case D118(a, b, ch, nxt) => (k == a && p == ch) || (k == b && p == nxt)
      case _ => false
  }

  /** A guard comes from the previous program counter or from a validation. */
  lemma GuardOrigin<T>(s: State<T>, t: Tid, c: Choice<T>, k: SlotId, p: Ptr)
    requires t < |s.pcs| && Guards(Micro(s, t, c).0, k, p)
    ensures Guards(s.pcs[t], k, p) || ValidatesNode(s, t, k, p)
  {
  }

  lemma GuardPublishes<T>(slots: seq<Slot>, t: Tid, pc: Pc<T>, k: SlotId, p: Ptr)
    requires ThreadSlots(slots, t, pc) && Guards(pc, k, p)
    ensures Publishes(slots, k, Some(p))
  {
  }

  /** Every step of every thread keeps the invariant. */
  lemma StepKeepsInv<T>(s: State<T>, a: Chain, t: Tid, c: Choice<T>)
    requires Inv(s, a) && t < |s.pcs|
    ensures Inv(Step(s, t, c), NextChain(a, Micro(s, t, c).1))
  {
    StepKeepsChain(s, a, t, c);
    StepKeepsSlots(s, t, c);
    StepKeepsBins(s, a, t, c);
  }

  lemma InitInv<T>(n: nat, v: T)
    ensures Inv(Init(n, v), Chain([0], map[0 := 0]))
  {
    InitChain(n, v);
    InitSlots(n, v);
    InitBins(n, v);
  }
}
