/**
Lock-freedom of the retry loops of enqueue and dequeue. An iteration that fails, other than by a spurious
compare-exchange failure, does so only because some thread linked a node or moved head or tail during that
iteration; and of two iterations that fail one after the other, one sees a value enter or leave the queue.
*/
module LockFreedom {
  import opened Wrappers
  import opened Machine
  import opened ChainInvariant
  import opened HazardSafety
  import opened QueueTheorems

  /** A successful compare-exchange on `next`, `tail` or `head`. */
  predicate Changes<T>(e: Effect<T>) {
    e.Link? || e.TailTo? || e.HeadTo?
  }

  /** A value enters or leaves the queue. */
  predicate TakesEffect<T>(e: Effect<T>) {
    e.Link? || e.HeadTo?
  }

  /** In an iteration of a retry loop, after its first load, and what it has loaded is still so. */
  ghost predicate UpToDate<T>(k: Core<T>, pc: Pc<T>) {
    match pc
    case Enq(e) => EnqUpToDate(k, e)
    case Deq(d) => DeqUpToDate(k, d)
    case _ => false
  }

  ghost predicate EnqUpToDate<T>(k: Core<T>, e: EnqPc) {
    match e
    case E53(_, ct) => ct == k.tail
    case E56(_, ct, nx) => ct == k.tail && nx == NextOf(k, ct)
    case E59(_, ct) => ct == k.tail && NextOf(k, ct) == None
    case E70(_, ct, nxt) => ct == k.tail
    case _ => false
  }

  ghost predicate DeqUpToDate<T>(k: Core<T>, d: DeqPc<T>) {
    match d
    case D86(_, _, ch) => ch == k.head
    case D88(_, _, ch) => ch == k.head
    case D92(_, _, ch) => ch == k.head
    case D93(_, _, ch, ct) => ch == k.head && ct == k.tail
    case D94(_, _, ch, ct, _) => ch == k.head && ct == k.tail
    case D97(_, _, ch, ct, _) => ch == k.head && ct == k.tail
    case D110(_, _, ch, ct, _) => ct == k.tail
    case D115(_, _, ch, _, _) => ch == k.head
    case _ => false
  }

  /** The first load of an iteration is about to happen. */
  predicate AtLoopHead<T>(pc: Pc<T>) {
    (pc.Enq? && pc.e.E52?) || (pc.Deq? && pc.d.D85?)
  }

  /** Inside an iteration that has neither failed nor succeeded yet. */
  predicate InLoop<T>(pc: Pc<T>) {
    match pc
    case Enq(e) => e.E53? || e.E56? || e.E59? || e.E70?
    case Deq(d) => d.D86? || d.D88? || d.D92? || d.D93? || d.D94? || d.D97? || d.D110? || d.D115?
    case _ => false
  }

  lemma EnqueueHolds<T>(k: Core<T>, p: EnqPc)
    requires p.E52? || EnqUpToDate(k, p)
    ensures var (pc', e) := StepEnqueue(k, p, false);
      Changes(e) || (!AtLoopHead(pc') && ApplyCore(k, e) == k && (InLoop(pc') ==> UpToDate(k, pc')))
  {
  }

  lemma DequeueHolds<T>(s: State<T>, d: DeqPc<T>)
    requires d.D85? || DeqUpToDate(s.core, d)
    ensures var (pc', e) := StepDequeue(s, d, false);
      Changes(e) || (!AtLoopHead(pc') && ApplyCore(s.core, e) == s.core && (InLoop(pc') ==> UpToDate(s.core, pc')))
  {
  }

  /** A step that changes nothing, by the thread itself, does not fail the iteration and leaves it up to date. */
  lemma OwnHolds<T>(s: State<T>, t: Tid, c: Choice<T>)
    requires t < |s.pcs| && !c.Spurious? && (AtLoopHead(s.pcs[t]) || UpToDate(s.core, s.pcs[t]))
    requires !Changes(Micro(s, t, c).1)
    ensures var s' := Step(s, t, c);
      !AtLoopHead(s'.pcs[t]) && (InLoop(s'.pcs[t]) ==> UpToDate(s'.core, s'.pcs[t]))
  {
    if s.pcs[t].Enq? {
      EnqueueHolds(s.core, s.pcs[t].e);
    } else {
      DequeueHolds(s, s.pcs[t].d);
    }
  }

  /** A compare-exchange may fail for no reason, and then changes nothing. */
  lemma SpuriousChangesNothing<T>(s: State<T>, t: Tid)
    requires t < |s.pcs|
    ensures Micro(s, t, Spurious).1.Nothing? || !InLoop(s.pcs[t]) || Micro(s, t, Spurious).1.Publish?
    ensures InLoop(s.pcs[t]) && Changes(Micro(s, t, Proceed).1) ==>
      AtLoopHead(Step(s, t, Spurious).pcs[t]) && Step(s, t, Spurious).core == s.core
  {
  }

  /** A step of another thread that changes nothing leaves an iteration up to date. */
  lemma OthersHold<T>(k: Core<T>, e: Effect<T>, pc: Pc<T>)
    requires UpToDate(k, pc) && !Changes(e)
    ensures UpToDate(ApplyCore(k, e), pc)
  {
  }

  /**
  One failed iteration of thread `t`: it starts with the load in move `l`, goes back to the loop head in
  move `i`, and none of its compare-exchanges fails spuriously.
  */
  ghost predicate FailedIteration<T>(r: Log<T>, t: Tid, l: nat, i: nat)
    requires Sized(r)
  {
    && l < i < |r.mv|
    && (forall k :: l <= k <= i + 1 ==> t < |r.st[k].pcs|)
    && (forall k :: l <= k <= i && r.mv[k].t == t ==> !r.mv[k].c.Spurious?)
    && r.mv[l].t == t && AtLoopHead(r.st[l].pcs[t])
    && (forall k :: l < k <= i ==> InLoop(r.st[k].pcs[t]))
    && r.mv[i].t == t && AtLoopHead(r.st[i + 1].pcs[t])
  }

  ghost predicate Calm<T>(r: Log<T>, l: nat, i: nat)
    requires Sized(r) && i <= |r.mv|
  {
    forall k :: l <= k < i ==> !Changes(r.ef[k])
  }

  lemma CalmStep<T>(r: Log<T>, n: nat, v: T, t: Tid, k: nat)
    requires IsRun(r, n, v) && k < |r.mv| && t < |r.st[k].pcs| && !Changes(r.ef[k])
    requires r.mv[k].t == t ==> !r.mv[k].c.Spurious?
    requires UpToDate(r.st[k].core, r.st[k].pcs[t]) || (r.mv[k].t == t && AtLoopHead(r.st[k].pcs[t]))
    ensures t < |r.st[k + 1].pcs|
    ensures InLoop(r.st[k + 1].pcs[t]) ==> UpToDate(r.st[k + 1].core, r.st[k + 1].pcs[t])
    ensures r.mv[k].t == t ==> !AtLoopHead(r.st[k + 1].pcs[t])
  {
    assert Moved(r, k);
    if r.mv[k].t == t {
      OwnHolds(r.st[k], t, r.mv[k].c);
    } else {
      OthersHold(r.st[k].core, r.ef[k], r.st[k].pcs[t]);
    }
  }

  lemma CalmSucceeds<T>(r: Log<T>, n: nat, v: T, t: Tid, l: nat, i: nat)
    requires IsRun(r, n, v) && FailedIteration(r, t, l, i)
    ensures !Calm(r, l, i + 1)
  {
    if Calm(r, l, i + 1) {
      CalmStep(r, n, v, t, l);
      for k := l + 1 to i
        invariant UpToDate(r.st[k].core, r.st[k].pcs[t])
      {
        CalmStep(r, n, v, t, k);
      }
      CalmStep(r, n, v, t, i);
      assert false;
    }
  }

  /** An iteration fails only if, during it, some thread's compare-exchange succeeded. */
  lemma FailureMeansChange<T>(r: Log<T>, n: nat, v: T, t: Tid, l: nat, i: nat) returns (k: nat)
    requires IsRun(r, n, v) && FailedIteration(r, t, l, i)
    ensures l <= k <= i && Changes(r.ef[k])
  {
    CalmSucceeds(r, n, v, t, l, i);
    k :| l <= k < i + 1 && Changes(r.ef[k]);
  }

  // ----- how many compare-exchanges succeed

  /** How many of the first `i` moves link a node, move tail, and move head. */
  ghost function Links<T>(r: Log<T>, i: nat): nat
    requires Sized(r) && i < |r.st|
  {
    if i == 0 then 0 else Links(r, i - 1) + if r.ef[i - 1].Link? then 1 else 0
  }

  ghost function Swings<T>(r: Log<T>, i: nat): nat
    requires Sized(r) && i < |r.st|
  {
    if i == 0 then 0 else Swings(r, i - 1) + if r.ef[i - 1].TailTo? then 1 else 0
  }

  ghost function Takes<T>(r: Log<T>, i: nat): nat
    requires Sized(r) && i < |r.st|
  {
    if i == 0 then 0 else Takes(r, i - 1) + if r.ef[i - 1].HeadTo? then 1 else 0
  }

  /** The chain, tail and head move one node at a time. */
  ghost predicate Tallied<T>(r: Log<T>, i: nat)
    requires Sized(r) && i < |r.st|
  {
    var c, a := r.st[i].core, r.ch[i];
    && |a.order| == Links(r, i) + 1
    && c.tail in a.rank && a.rank[c.tail] == Swings(r, i)
    && c.head in a.rank && a.rank[c.head] == Takes(r, i)
  }

  lemma TallyEffect<T>(c: Core<T>, a: Chain, e: Effect<T>)
    requires ChainOk(c, a) && EffectOk(c, a, e)
    ensures var c', a' := ApplyCore(c, e), NextChain(a, e);
      && |a'.order| == |a.order| + (if e.Link? then 1 else 0)
      && c'.tail in a'.rank && a'.rank[c'.tail] == a.rank[c.tail] + (if e.TailTo? then 1 else 0)
      && c'.head in a'.rank && a'.rank[c'.head] == a.rank[c.head] + (if e.HeadTo? then 1 else 0)
  {
  }

  lemma TallyStep<T>(r: Log<T>, n: nat, v: T, i: nat)
    requires IsRun(r, n, v) && i < |r.mv| && Tallied(r, i)
    ensures Tallied(r, i + 1)
  {
    InvAt(r, n, v, i);
    assert Moved(r, i);
    assert ThreadOk(r.st[i].core, r.ch[i], r.st[i].pcs[r.mv[i].t]);
    MicroOk(r.st[i], r.ch[i], r.mv[i].t, r.mv[i].c);
    TallyEffect(r.st[i].core, r.ch[i], r.ef[i]);
  }

  lemma TalliedAt<T>(r: Log<T>, n: nat, v: T, i: nat)
    requires IsRun(r, n, v) && i < |r.st|
    ensures Tallied(r, i)
  {
    for k := 0 to i
      invariant Tallied(r, k)
    {
      TallyStep(r, n, v, k);
    }
  }

  /** Tail follows the links and head follows tail: at most one link waits for its tail move. */
  lemma HelpingIsBounded<T>(r: Log<T>, n: nat, v: T, i: nat)
    requires IsRun(r, n, v) && i < |r.st|
    ensures Takes(r, i) <= Swings(r, i) <= Links(r, i) <= Swings(r, i) + 1
  {
    TalliedAt(r, n, v, i);
    InvAt(r, n, v, i);
  }

  lemma {:induction false} CountsGrow<T>(r: Log<T>, i: nat, j: nat)
    requires Sized(r) && i <= j < |r.st|
    ensures Swings(r, i) <= Swings(r, j)
    ensures (forall k :: i <= k < j ==> !r.ef[k].Link?) ==> Links(r, i) == Links(r, j)
    decreases j
  {
    if i < j {
      CountsGrow(r, i, j - 1);
    }
  }

  /** Tail moves twice only if a node is linked in between or between the moves and `l`. */
  lemma TwoSwings<T>(r: Log<T>, n: nat, v: T, l: nat, a: nat, b: nat)
    requires IsRun(r, n, v) && l <= a < b < |r.mv| && r.ef[a].TailTo? && r.ef[b].TailTo?
    ensures exists k :: l <= k < b && r.ef[k].Link?
  {
    if forall k :: l <= k < b ==> !r.ef[k].Link? {
      CountsGrow(r, l, a);
      CountsGrow(r, a + 1, b);
      CountsGrow(r, l, b);
      HelpingIsBounded(r, n, v, l);
      HelpingIsBounded(r, n, v, b + 1);
      assert false;
    }
  }

  /**
  Lock-freedom: if a thread fails two iterations, not by spurious failures, then between the start of the
  first and the end of the second a value entered or left the queue.
  */
  lemma TwoFailuresMeanProgress<T>(r: Log<T>, n: nat, v: T, t: Tid, l: nat, i: nat, l': nat, i': nat) returns (k: nat)
    requires IsRun(r, n, v) && FailedIteration(r, t, l, i) && FailedIteration(r, t, l', i') && i < l'
    ensures l <= k <= i' && TakesEffect(r.ef[k])
  {
    var a := FailureMeansChange(r, n, v, t, l, i);
    var b := FailureMeansChange(r, n, v, t, l', i');
    if TakesEffect(r.ef[a]) {
      k := a;
    } else if TakesEffect(r.ef[b]) {
      k := b;
    } else {
      TwoSwings(r, n, v, l, a, b);
      k :| l <= k < b && r.ef[k].Link?;
    }
  }
}
