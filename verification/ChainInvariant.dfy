/**
The shape of the linked list: in every reachable state the nodes ever linked form one chain with
write-once links, head is at or before tail, and tail is the last or second-to-last node.
*/
module ChainInvariant {
  import opened Wrappers
  import opened Machine

  /** The nodes linked so far, oldest first, and the position of each. */
  datatype Chain = Chain(order: seq<Ptr>, rank: map<Ptr, nat>)

  ghost predicate Indexed(a: Chain) {
    && (forall i :: 0 <= i < |a.order| ==> a.order[i] in a.rank && a.rank[a.order[i]] == i)
    && (forall x :: x in a.rank ==> a.rank[x] < |a.order| && a.order[a.rank[x]] == x)
  }

  ghost predicate LinkOk<T>(c: Core<T>, a: Chain, x: Ptr)
    requires Indexed(a)
  {
    x in a.rank ==>
      && x < |c.nodes|
      && c.nodes[x].next == if a.rank[x] + 1 < |a.order| then Some(a.order[a.rank[x] + 1]) else None
  }

  ghost predicate ChainOk<T>(c: Core<T>, a: Chain) {
    && Indexed(a)
    && (forall x {:trigger LinkOk(c, a, x)} :: LinkOk(c, a, x))
    && c.head in a.rank && c.tail in a.rank
    && a.rank[c.head] <= a.rank[c.tail]
    && a.rank[c.tail] + 2 >= |a.order|
    && (forall x :: 0 <= x < |c.nodes| && x !in a.rank ==> c.nodes[x].next == None)
  }

  ghost predicate Fresh<T>(c: Core<T>, a: Chain, n: Ptr) {
    n < |c.nodes| && n !in a.rank
  }

  ghost predicate TailSeen<T>(c: Core<T>, a: Chain, x: Ptr) {
    x in a.rank && c.tail in a.rank && a.rank[x] <= a.rank[c.tail]
  }

  ghost predicate HeadSeen<T>(c: Core<T>, a: Chain, x: Ptr) {
    x in a.rank && c.head in a.rank && a.rank[x] <= a.rank[c.head]
  }

  ghost predicate Succ(a: Chain, x: Ptr, y: Ptr) {
    x in a.rank && y in a.rank && a.rank[y] == a.rank[x] + 1
  }

  ghost predicate Passed<T>(c: Core<T>, a: Chain, x: Ptr) {
    x in a.rank && c.head in a.rank && a.rank[x] < a.rank[c.head]
  }

  ghost predicate EnqOk<T>(c: Core<T>, a: Chain, e: EnqPc) {
    match e
    case E52(n) => Fresh(c, a, n)
    case E53(n, ct) => Fresh(c, a, n) && TailSeen(c, a, ct)
    case E56(n, ct, nx) => Fresh(c, a, n) && TailSeen(c, a, ct) && (nx.Some? ==> Succ(a, ct, nx.value))
    case E59(n, ct) => Fresh(c, a, n) && TailSeen(c, a, ct)
    case E63(n, ct) => Succ(a, ct, n)
    case E70(n, ct, nxt) => Fresh(c, a, n) && Succ(a, ct, nxt)
    case E66 => true
  }

  ghost predicate DeqOk<T>(c: Core<T>, a: Chain, d: DeqPc<T>) {
    match d
    case D86(_, _, ch) => HeadSeen(c, a, ch)
    case D88(_, _, ch) => HeadSeen(c, a, ch)
    case D92(_, _, ch) => HeadSeen(c, a, ch)
    case D93(_, _, ch, ct) => HeadSeen(c, a, ch) && TailSeen(c, a, ct) && a.rank[ch] <= a.rank[ct]
    case D94(_, _, ch, ct, nx) =>
      HeadSeen(c, a, ch) && TailSeen(c, a, ct) && a.rank[ch] <= a.rank[ct] && (nx.Some? ==> Succ(a, ch, nx.value))
    case D97(_, _, ch, ct, nx) =>
      HeadSeen(c, a, ch) && TailSeen(c, a, ct) && a.rank[ch] <= a.rank[ct] && (nx.Some? ==> Succ(a, ch, nx.value))
    case D110(_, _, ch, ct, nxt) => ch == ct && Succ(a, ch, nxt)
    case D115(_, _, ch, ct, nxt) =>
      TailSeen(c, a, ct) && ch in a.rank && a.rank[ch] < a.rank[ct] && Succ(a, ch, nxt)
    case D118(_, _, ch, nxt) => Succ(a, ch, nxt) && Passed(c, a, ch)
    case Releasing(_, _, out) => out.Took? ==> Passed(c, a, out.ch)
    case _ => true
  }

  /** What a thread's locals say about the chain. */
  ghost predicate ThreadOk<T>(c: Core<T>, a: Chain, pc: Pc<T>) {
    match pc
    case Enq(e) => EnqOk(c, a, e)
    case Deq(d) => DeqOk(c, a, d)
    case Ret(_, r) => r.R269? ==> Passed(c, a, r.ch)
    case _ => true
  }

  /** The node an enqueue has allocated and not yet linked. */
  function OwnNode<T>(pc: Pc<T>): Option<Ptr> {
    if pc.Enq? && !pc.e.E63? && !pc.e.E66? then Some(pc.e.n) else None
  }

  ghost predicate OwnDistinct<T>(pcs: seq<Pc<T>>) {
    forall t, u :: 0 <= t < u < |pcs| && OwnNode(pcs[t]).Some? ==> OwnNode(pcs[t]) != OwnNode(pcs[u])
  }

  ghost predicate InvChain<T>(s: State<T>, a: Chain) {
    && ChainOk(s.core, a)
    && (forall t :: 0 <= t < |s.pcs| ==> ThreadOk(s.core, a, s.pcs[t]))
    && OwnDistinct(s.pcs)
  }

  /** The chain after a step: only the link compare-exchange extends it. */
  ghost function NextChain<T>(a: Chain, e: Effect<T>): Chain {
    match e
    case Link(_, n) => Chain(a.order + [n], a.rank[n := |a.order|])
    case _ => a
  }

  /** What the shared-memory accesses of the program respect. */
  ghost predicate EffectOk<T>(c: Core<T>, a: Chain, e: Effect<T>) {
    match e
    case Link(at, n) => Fresh(c, a, n) && TailSeen(c, a, at) && NextOf(c, at) == None
    case TailTo(x) => Succ(a, c.tail, x)
    case HeadTo(x) => Succ(a, c.head, x) && TailSeen(c, a, x)
    case _ => true
  }

  /** How shared memory evolves: nothing moves within the chain, and head and tail only advance. */
  ghost predicate Grows<T>(c: Core<T>, a: Chain, c': Core<T>, a': Chain) {
    && a.order <= a'.order
    && |c.nodes| <= |c'.nodes|
    && (forall x :: 0 <= x < |c.nodes| ==> c'.nodes[x].data == c.nodes[x].data)
    && (forall x :: 0 <= x < |c.nodes| && c.nodes[x].next.Some? ==> c'.nodes[x].next == c.nodes[x].next)
    && (forall x :: x in a.rank ==> x in a'.rank && a'.rank[x] == a.rank[x])
    && c.head in a.rank && c.tail in a.rank && c'.head in a'.rank && c'.tail in a'.rank
    && a.rank[c.head] <= a'.rank[c'.head]
    && a.rank[c.tail] <= a'.rank[c'.tail]
  }

  lemma LinkKeepsChain<T>(c: Core<T>, a: Chain, at: Ptr, n: Ptr)
    requires ChainOk(c, a) && EffectOk(c, a, Link(at, n))
    ensures ChainOk(ApplyCore(c, Link(at, n)), NextChain<T>(a, Link(at, n)))
    ensures Grows(c, a, ApplyCore(c, Link(at, n)), NextChain<T>(a, Link(at, n)))
    ensures a.rank[at] + 1 == |a.order|
  {
    var c', a' := ApplyCore(c, Link(at, n)), NextChain<T>(a, Link(at, n));
    assert LinkOk(c, a, at);
    assert at == a.order[|a.order| - 1];
    forall x ensures LinkOk(c', a', x) {
      assert LinkOk(c, a, x);
    }
  }

  lemma EffectKeepsChain<T>(c: Core<T>, a: Chain, e: Effect<T>)
    requires ChainOk(c, a) && EffectOk(c, a, e)
    ensures ChainOk(ApplyCore(c, e), NextChain(a, e))
    ensures Grows(c, a, ApplyCore(c, e), NextChain(a, e))
  {
    if e.Link? {
      LinkKeepsChain(c, a, e.at, e.n);
    } else {
      var c' := ApplyCore(c, e);
      forall x ensures LinkOk(c', a, x) {
        assert LinkOk(c, a, x);
      }
    }
  }

  /** Facts of a thread survive the steps of the others. */
  lemma ThreadStable<T>(c: Core<T>, a: Chain, c': Core<T>, a': Chain, pc: Pc<T>)
    requires ThreadOk(c, a, pc) && Grows(c, a, c', a')
    requires OwnNode(pc).Some? ==> OwnNode(pc).value !in a'.rank
    ensures ThreadOk(c', a', pc)
  {
  }

  lemma EnqueueStep<T>(k: Core<T>, a: Chain, p: EnqPc, spurious: bool)
    requires ChainOk(k, a) && EnqOk(k, a, p)
    ensures var (pc', e) := StepEnqueue(k, p, spurious);
      && EffectOk(k, a, e)
      && ThreadOk(ApplyCore(k, e), NextChain(a, e), pc')
      && (OwnNode(pc') == OwnNode<T>(Enq(p)) || OwnNode(pc').None?)
      && (e.Link? ==> !p.E66? && p.n == e.n && OwnNode(pc').None?)
  {
    var (pc', e) := StepEnqueue(k, p, spurious);
    if p.E53? {
      assert LinkOk(k, a, p.ct);
    } else if e.Link? {
      LinkKeepsChain(k, a, p.ct, p.n);
    }
  }

  lemma DequeueStep<T>(s: State<T>, a: Chain, d: DeqPc<T>, spurious: bool)
    requires ChainOk(s.core, a) && DeqOk(s.core, a, d)
    ensures var (pc', e) := StepDequeue(s, d, spurious);
      && EffectOk(s.core, a, e)
      && ThreadOk(ApplyCore(s.core, e), a, pc')
      && OwnNode(pc').None? && !e.Link?
  {
    if d.D93? {
      assert LinkOk(s.core, a, d.ch);
    }
  }

  lemma RetireLeavesCore<T>(s: State<T>, a: Chain, t: Tid, v: T, r: RetPc)
    ensures var (pc', e) := StepRetire(s.bins, t, v, r);
      && EffectOk(s.core, a, e) && ApplyCore(s.core, e) == s.core && !e.Link?
      && ThreadOk(s.core, a, pc') && OwnNode(pc').None?
  {
  }

  lemma ScanLeavesCore<T>(s: State<T>, a: Chain, p: ScanPc)
    ensures var (pc', e) := StepScan(s, p);
      && EffectOk(s.core, a, e) && ApplyCore(s.core, e) == s.core && !e.Link?
      && ThreadOk(s.core, a, pc') && OwnNode(pc').None?
  {
  }

  lemma MicroOk<T>(s: State<T>, a: Chain, t: Tid, c: Choice<T>)
    requires ChainOk(s.core, a) && t < |s.pcs| && ThreadOk(s.core, a, s.pcs[t])
    ensures var (pc', e) := Micro(s, t, c);
      && EffectOk(s.core, a, e)
      && ThreadOk(ApplyCore(s.core, e), NextChain(a, e), pc')
      && (OwnNode(pc') == OwnNode(s.pcs[t]) || OwnNode(pc').None? || (e.Alloc? && OwnNode(pc') == Some(|s.core.nodes|)))
      && (e.Link? ==> OwnNode(s.pcs[t]) == Some(e.n) && OwnNode(pc').None?)
  {
    match s.pcs[t]
    case Idle => assert LinkOk(s.core, a, |s.core.nodes|);
    case Enq(e) => EnqueueStep(s.core, a, e, c.Spurious?);
    case Deq(d) => DequeueStep(s, a, d, c.Spurious?);
    case Ret(v, r) => RetireLeavesCore(s, a, t, v, r);
    case Scan(p) => ScanLeavesCore(s, a, p);
  }

  /** A successful link leaves every other thread's node outside the chain. */
  lemma OthersStayFresh<T>(s: State<T>, a: Chain, t: Tid, c: Choice<T>, u: Tid)
    requires InvChain(s, a) && t < |s.pcs| && u < |s.pcs| && u != t
    ensures OwnNode(s.pcs[u]).Some? ==> OwnNode(s.pcs[u]).value !in NextChain(a, Micro(s, t, c).1).rank
  {
    MicroOk(s, a, t, c);
    assert ThreadOk(s.core, a, s.pcs[u]);
    assert if t < u then OwnNode(s.pcs[t]) == OwnNode(s.pcs[u]) ==> OwnNode(s.pcs[t]).None?
           else OwnNode(s.pcs[u]) == OwnNode(s.pcs[t]) ==> OwnNode(s.pcs[u]).None?;
  }

  /** Every step keeps the chain, extends it at most at its end, and never moves head or tail back. */
  lemma StepKeepsChain<T>(s: State<T>, a: Chain, t: Tid, c: Choice<T>)
    requires InvChain(s, a) && t < |s.pcs|
    ensures var a' := NextChain(a, Micro(s, t, c).1);
      InvChain(Step(s, t, c), a') && Grows(s.core, a, Step(s, t, c).core, a')
  {
    var (pc', e) := Micro(s, t, c);
    var s', a' := Step(s, t, c), NextChain(a, e);
    MicroOk(s, a, t, c);
    EffectKeepsChain(s.core, a, e);
    forall u | 0 <= u < |s.pcs| && u != t ensures ThreadOk(s'.core, a', s'.pcs[u]) {
      OthersStayFresh(s, a, t, c, u);
      ThreadStable(s.core, a, s'.core, a', s.pcs[u]);
    }
    forall u, w | 0 <= u < w < |s.pcs| && OwnNode(s'.pcs[u]).Some? ensures OwnNode(s'.pcs[u]) != OwnNode(s'.pcs[w]) {
      assert ThreadOk(s.core, a, s.pcs[u]) && ThreadOk(s.core, a, s.pcs[w]);
      assert OwnNode(s.pcs[u]).Some? ==> OwnNode(s.pcs[u]) != OwnNode(s.pcs[w]);
    }
  }

  lemma InitChain<T>(n: nat, v: T)
    ensures InvChain(Init(n, v), Chain([0], map[0 := 0]))
  {
    var s: State<T>, a := Init(n, v), Chain([0], map[0 := 0]);
    forall x ensures LinkOk(s.core, a, x) {}
  }
}
