/**
Retired nodes. Every node head has passed is in exactly one place: still held by the thread that
dequeued it, in a thread-local list, in the global list, claimed by a reclaimer, or deleted. The
retired lists stay under their threshold and the global list changes only under its mutex.
*/
module RetireInvariant {
  import opened Wrappers
  import opened Machine
  import opened Sums
  import opened ChainInvariant

  /** The nodes a thread has to retire or to delete. */
  function Waits<T>(pc: Pc<T>): seq<Ptr> {
    match pc
    case Deq(d) => if d.D118? then [d.ch] else if d.Releasing? && d.out.Took? then [d.out.ch] else []
    case Ret(_, r) => if r.R269? then [r.ch] else []
    case Scan(p) => if p.S179? || p.S151? || p.S154? || p.S189? then p.claimed else []
    case _ => []
  }

  function Waiting<T>(pc: Pc<T>): multiset<Ptr> {
    multiset(Waits(pc))
  }

  function AsBag(l: seq<Ptr>): multiset<Ptr> {
    multiset(l)
  }

  /** Everything in the retired lists or deleted. */
  ghost function InBins(b: Bins): multiset<Ptr> {
    Bag(b.locals, AsBag) + multiset(b.global) + multiset(b.freed)
  }

  ghost function Account<T>(s: State<T>): multiset<Ptr> {
    Bag(s.pcs, Waiting) + InBins(s.bins)
  }

  /** The nodes head has passed are exactly the nodes accounted for. */
  ghost predicate Conserved<T>(s: State<T>, a: Chain) {
    && s.core.head in a.rank && a.rank[s.core.head] <= |a.order|
    && multiset(a.order[..a.rank[s.core.head]]) == Account(s)
  }

  predicate HoldsLock<T>(pc: Pc<T>) {
    || (pc.Ret? && (pc.r.R279? || pc.r.R285? || pc.r.Stuck?))
    || (pc.Scan? && (pc.s.S163? || pc.s.S179? || pc.s.S151? || pc.s.S154?))
  }

  ghost predicate Locking<T>(s: State<T>) {
    && (forall t :: 0 <= t < |s.pcs| ==> (HoldsLock(s.pcs[t]) <==> s.bins.lock == Some(t)))
    && (s.bins.lock.Some? ==> s.bins.lock.value < |s.pcs|)
  }

  /** Outside RetirePointer a local list is shorter than the threshold. */
  ghost predicate SizeOk<T>(l: seq<Ptr>, pc: Pc<T>) {
    || |l| < LOCAL_THRESHOLD
    || (|l| == LOCAL_THRESHOLD && pc.Ret? && (pc.r.R272? || pc.r.R276? || pc.r.R279?))
  }

  ghost predicate CursorOk<T>(s: State<T>, pc: Pc<T>) {
    && (pc.Scan? && pc.s.S179? ==> pc.s.i <= |s.bins.global|)
    && (pc.Scan? && (pc.s.S151? || pc.s.S154?) ==> pc.s.i < |s.bins.global| && pc.s.c <= |s.slots|)
    && (pc.Scan? && pc.s.S154? ==> pc.s.c > 0)
  }

  ghost predicate Shape<T>(s: State<T>) {
    && |s.bins.locals| == |s.pcs|
    && (forall i :: 0 <= i < |s.bins.registered| ==> s.bins.registered[i] < |s.pcs|)
    && (forall t :: 0 <= t < |s.pcs| ==> SizeOk(s.bins.locals[t], s.pcs[t]))
    && (forall t :: 0 <= t < |s.pcs| ==> CursorOk(s, s.pcs[t]))
  }

  ghost predicate InvBins<T>(s: State<T>, a: Chain) {
    Shape(s) && Locking(s) && Conserved(s, a)
  }

  // ----- what one step does to the bins

  /** How a step moves nodes between its thread and the lists. */
  ghost predicate Moves<T>(k: Core<T>, b: Bins, e: Effect<T>, w: seq<Ptr>, w': seq<Ptr>) {
    match e
    case HeadTo(_) => w == [] && w' == [k.head]
    case Append(x) => w == [x] && w' == []
    case Claim(i) => i < |b.global| && w' == w + [b.global[i]]
    case Free(x) => w != [] && w[0] == x && w' == w[1..]
    case Splice(u) => u < |b.locals| && w' == w
    case _ => w' == w
  }

  /** The mutex is taken only when free and held exactly where the code holds it. */
  ghost predicate LockMove<T>(b: Bins, e: Effect<T>, held: bool, held': bool) {
    match e
    case Lock => !held && held' && b.lock == None
    case Unlock => held && !held'
    case Splice(_) => held && held'
    case Claim(_) => held && held'
    case _ => held' == held
  }

  ghost predicate Handles<T>(s: State<T>, pc: Pc<T>, pc': Pc<T>, e: Effect<T>) {
    Moves(s.core, s.bins, e, Waits(pc), Waits(pc')) && LockMove(s.bins, e, HoldsLock(pc), HoldsLock(pc'))
  }

  lemma DequeueHandles<T>(s: State<T>, d: DeqPc<T>, spurious: bool)
    ensures var (pc', e) := StepDequeue(s, d, spurious); Handles(s, Deq(d), pc', e)
  {
  }

  lemma RetireHandles<T>(s: State<T>, t: Tid, v: T, r: RetPc)
    requires t < |s.bins.locals|
    ensures var (pc', e) := StepRetire(s.bins, t, v, r); Handles(s, Ret(v, r), pc', e)
  {
  }

  lemma ScanHandles<T>(s: State<T>, p: ScanPc)
    requires CursorOk(s, Scan(p))
    requires forall i :: 0 <= i < |s.bins.registered| ==> s.bins.registered[i] < |s.bins.locals|
    ensures var (pc', e) := StepScan(s, p); Handles(s, Scan(p), pc', e)
  {
  }

  lemma MicroHandles<T>(s: State<T>, t: Tid, c: Choice<T>)
    requires Shape(s) && t < |s.pcs|
    ensures Handles(s, s.pcs[t], Micro(s, t, c).0, Micro(s, t, c).1)
  {
    match s.pcs[t]
    case Idle =>
    case Enq(_) =>
    case Deq(d) => DequeueHandles(s, d, c.Spurious?);
    case Ret(v, r) => RetireHandles(s, t, v, r);
    case Scan(p) => ScanHandles(s, p);
  }

  // ----- the mutex

  lemma StepKeepsLocking<T>(s: State<T>, t: Tid, c: Choice<T>)
    requires Shape(s) && Locking(s) && t < |s.pcs|
    ensures Locking(Step(s, t, c))
  {
    MicroHandles(s, t, c);
    assert HoldsLock(s.pcs[t]) <==> s.bins.lock == Some(t);
  }

  // ----- sizes and cursors

  lemma StepKeepsSizes<T>(s: State<T>, t: Tid, c: Choice<T>, u: Tid)
    requires Shape(s) && t < |s.pcs| && u < |s.pcs|
    ensures |Step(s, t, c).bins.locals| == |s.pcs|
    ensures SizeOk(Step(s, t, c).bins.locals[u], Step(s, t, c).pcs[u])
  {
    assert SizeOk(s.bins.locals[t], s.pcs[t]) && SizeOk(s.bins.locals[u], s.pcs[u]);
    match s.pcs[t]
    case Deq(d) => DequeueLeavesBins(s, d, c.Spurious?);
    case _ =>
  }

  lemma DequeueLeavesBins<T>(s: State<T>, d: DeqPc<T>, spurious: bool)
    ensures var (pc', e) := StepDequeue(s, d, spurious);
      !e.Append? && !e.Splice? && !e.Claim? && (pc'.Ret? ==> pc'.r.R269?) && !pc'.Scan?
  {
  }

  lemma StepKeepsCursors<T>(s: State<T>, t: Tid, c: Choice<T>, u: Tid)
    requires Shape(s) && Locking(s) && t < |s.pcs| && u < |s.pcs|
    requires |s.slots| <= |Step(s, t, c).slots|
    ensures CursorOk(Step(s, t, c), Step(s, t, c).pcs[u])
  {
    assert CursorOk(s, s.pcs[t]) && CursorOk(s, s.pcs[u]);
    MicroHandles(s, t, c);
    if u == t {
      if s.pcs[t].Deq? {
        DequeueLeavesBins(s, s.pcs[t].d, c.Spurious?);
      }
    } else if HoldsLock(s.pcs[u]) {
      assert !HoldsLock(s.pcs[t]);
    }
  }

  lemma StepKeepsShape<T>(s: State<T>, t: Tid, c: Choice<T>)
    requires Shape(s) && Locking(s) && t < |s.pcs| && |s.slots| <= |Step(s, t, c).slots|
    ensures Shape(Step(s, t, c))
  {
    var s' := Step(s, t, c);
    forall u | 0 <= u < |s.pcs|
      ensures |s'.bins.locals| == |s.pcs| && SizeOk(s'.bins.locals[u], s'.pcs[u]) && CursorOk(s', s'.pcs[u]) {
      StepKeepsSizes(s, t, c, u);
      StepKeepsCursors(s, t, c, u);
    }
  }

  // ----- conservation

  ghost predicate BinsMove<T>(b: Bins, t: Tid, e: Effect<T>) {
    var before, after := InBins(b), InBins(ApplyBins(b, t, e));
    match e
    case Append(x) => after == before + multiset{x}
    case Claim(i) => i < |b.global| && before == after + multiset{b.global[i]}
    case Free(x) => after == before + multiset{x}
    case _ => after == before
  }

  lemma Cancel(p: multiset<Ptr>, p': multiset<Ptr>, w: multiset<Ptr>, x: multiset<Ptr>)
    requires p' + w == p + (w + x)
    ensures p' == p + x
  {
    forall q ensures p'[q] == (p + x)[q] {
      assert (p' + w)[q] == (p + (w + x))[q];
    }
  }

  lemma AppendToLocal(b: Bins, t: Tid, x: Ptr)
    requires t < |b.locals|
    ensures Bag(b.locals[t := b.locals[t] + [x]], AsBag) == Bag(b.locals, AsBag) + multiset{x}
  {
    BagUpdate(b.locals, t, b.locals[t] + [x], AsBag);
    assert AsBag(b.locals[t] + [x]) == AsBag(b.locals[t]) + multiset{x};
    Cancel(Bag(b.locals, AsBag), Bag(b.locals[t := b.locals[t] + [x]], AsBag), AsBag(b.locals[t]), multiset{x});
  }

  lemma SpliceLocal(b: Bins, u: Tid)
    requires u < |b.locals|
    ensures Bag(b.locals[u := []], AsBag) + multiset(b.global + b.locals[u]) ==
            Bag(b.locals, AsBag) + multiset(b.global)
  {
    var l, rest := multiset(b.locals[u]), Bag(b.locals[u := []], AsBag);
    BagUpdate(b.locals, u, [], AsBag);
    assert rest + (multiset(b.global) + l) == (rest + l) + multiset(b.global);
  }

  lemma ClaimGlobal(l: seq<Ptr>, i: nat)
    requires i < |l|
    ensures multiset(l) == multiset(l[..i] + l[i + 1..]) + multiset{l[i]}
  {
    assert l == l[..i] + [l[i]] + l[i + 1..];
  }

  lemma EffectOnBins<T>(b: Bins, t: Tid, e: Effect<T>)
    requires t < |b.locals|
    requires e.Splice? ==> e.u < |b.locals|
    requires e.Claim? ==> e.i < |b.global|
    ensures BinsMove(b, t, e)
  {
    var b' := ApplyBins(b, t, e);
    match e
    case Append(x) =>
      AppendToLocal(b, t, x);
      Swap(Bag(b.locals, AsBag), multiset{x}, multiset(b.global), multiset(b.freed));
    case Splice(u) => SpliceLocal(b, u);
    case Claim(i) =>
      ClaimGlobal(b.global, i);
      Swap(Bag(b.locals, AsBag) + multiset(b'.global), multiset{b.global[i]}, multiset{}, multiset(b.freed));
    case Free(x) => assert multiset(b'.freed) == multiset(b.freed) + multiset{x};
    case _ =>
  }

  lemma Swap(p: multiset<Ptr>, x: multiset<Ptr>, q: multiset<Ptr>, r: multiset<Ptr>)
    ensures (p + x) + q + r == (p + q + r) + x
  {
  }

  lemma Balance(p: multiset<Ptr>, p': multiset<Ptr>, w: multiset<Ptr>, w': multiset<Ptr>,
                b: multiset<Ptr>, b': multiset<Ptr>, x: multiset<Ptr>)
    requires p' + w == p + w'
    requires (w == w' + x && b' == b + x) || (w' == w + x && b == b' + x)
    ensures p' + b' == p + b
  {
    forall q ensures (p' + b')[q] == (p + b)[q] {
      assert (p' + w)[q] == (p + w')[q];
    }
  }

  /** Nothing is lost or duplicated: only the head compare-exchange adds a node, the old head. */
  lemma AccountStep<T>(s: State<T>, t: Tid, c: Choice<T>)
    requires Shape(s) && t < |s.pcs|
    ensures Account(Step(s, t, c)) ==
            Account(s) + (if Micro(s, t, c).1.HeadTo? then multiset{s.core.head} else multiset{})
  {
    MicroHandles(s, t, c);
    AccountEffect(s, t, Micro(s, t, c).0, Micro(s, t, c).1);
  }

  lemma AccountEffect<T>(s: State<T>, t: Tid, pc': Pc<T>, e: Effect<T>)
    requires Shape(s) && t < |s.pcs| && Moves(s.core, s.bins, e, Waits(s.pcs[t]), Waits(pc'))
    ensures Bag(s.pcs[t := pc'], Waiting) + InBins(ApplyBins(s.bins, t, e)) ==
            Account(s) + (if e.HeadTo? then multiset{s.core.head} else multiset{})
  {
    BagUpdate(s.pcs, t, pc', Waiting);
    EffectOnBins(s.bins, t, e);
    Ledger(s.core, s.bins, e, Waits(s.pcs[t]), Waits(pc'), Bag(s.pcs, Waiting), Bag(s.pcs[t := pc'], Waiting),
           InBins(s.bins), InBins(ApplyBins(s.bins, t, e)));
  }

  /** The double entry: what leaves the thread enters the lists and the other way round. */
  lemma Ledger<T>(k: Core<T>, bins: Bins, e: Effect<T>, w: seq<Ptr>, w': seq<Ptr>, p: multiset<Ptr>, p': multiset<Ptr>,
                  b: multiset<Ptr>, b': multiset<Ptr>)
    requires Moves(k, bins, e, w, w')
    requires p' + multiset(w) == p + multiset(w')
    requires match e
      case Append(x) => b' == b + multiset{x}
      case Claim(i) => i < |bins.global| && b == b' + multiset{bins.global[i]}
      case Free(x) => b' == b + multiset{x}
      case _ => b' == b
    ensures p' + b' == (p + b) + (if e.HeadTo? then multiset{k.head} else multiset{})
  {
    var m, m' := multiset(w), multiset(w');
    if e.HeadTo? {
      assert p' == p + m';
    } else if e.Append? {
      Balance(p, p', m, m', b, b', multiset{e.x});
    } else if e.Claim? {
      Balance(p, p', m, m', b, b', multiset{bins.global[e.i]});
    } else if e.Free? {
      assert w == [w[0]] + w';
      Balance(p, p', m, m', b, b', multiset{e.x});
    } else {
      Balance(p, p', m, m', b, b', multiset{});
    }
  }

  /** The part of the chain before head grows with head and is otherwise fixed. */
  lemma PrefixStep<T>(k: Core<T>, a: Chain, e: Effect<T>)
    requires ChainOk(k, a) && EffectOk(k, a, e)
    ensures var k', a' := ApplyCore(k, e), NextChain(a, e);
      && k'.head in a'.rank && a'.rank[k'.head] <= |a'.order|
      && a'.order[..a'.rank[k'.head]] == a.order[..a.rank[k.head]] + (if e.HeadTo? then [k.head] else [])
  {
  }

  lemma StepKeepsConserved<T>(s: State<T>, a: Chain, t: Tid, c: Choice<T>)
    requires InvChain(s, a) && Shape(s) && Conserved(s, a) && t < |s.pcs|
    ensures Conserved(Step(s, t, c), NextChain(a, Micro(s, t, c).1))
  {
    var e := Micro(s, t, c).1;
    assert EffectOk(s.core, a, e) by {
      assert ThreadOk(s.core, a, s.pcs[t]);
      MicroOk(s, a, t, c);
    }
    PrefixStep(s.core, a, e);
    AccountStep(s, t, c);
  }

  lemma StepKeepsBins<T>(s: State<T>, a: Chain, t: Tid, c: Choice<T>)
    requires InvChain(s, a) && InvBins(s, a) && t < |s.pcs| && |s.slots| <= |Step(s, t, c).slots|
    ensures InvBins(Step(s, t, c), NextChain(a, Micro(s, t, c).1))
  {
    StepKeepsLocking(s, t, c);
    StepKeepsShape(s, t, c);
    StepKeepsConserved(s, a, t, c);
  }

  lemma InitBins<T>(n: nat, v: T)
    ensures InvBins(Init(n, v), Chain([0], map[0 := 0]))
  {
    BagEmpty(Init(n, v).pcs, Waiting);
    BagEmpty(Init(n, v).bins.locals, AsBag);
  }

  /** A node at or after head has never been retired. */
  lemma NotRetired<T>(s: State<T>, a: Chain, p: Ptr)
    requires ChainOk(s.core, a) && Conserved(s, a) && p in a.rank && a.rank[p] >= a.rank[s.core.head]
    ensures p !in Account(s)
  {
    var prefix := a.order[..a.rank[s.core.head]];
    assert p !in prefix;
    assert p !in multiset(prefix);
  }
}
