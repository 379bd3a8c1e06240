/**
Refinement of the queue machine to an atomic FIFO queue.

The specification is a queue whose operations take effect at one instant between call and return: an
enqueue appends, a dequeue takes the first element, and a dequeue may report "empty" only if the queue
was empty at some instant of that call. Every run of the machine shows the same calls and returns.
*/
module Fifo {
  import opened Wrappers
  import opened Machine
  import opened ChainInvariant
  import Pigeonhole

  // ----- what a queue holds

  /** The nodes met when following `next` from `n`. */
  function Follow<T>(nodes: seq<Node<T>>, n: Ptr, fuel: nat): (ps: seq<Ptr>)
    ensures forall i :: 0 <= i < |ps| ==> ps[i] < |nodes|
    decreases fuel
  {
    if n >= |nodes| || fuel == 0 then []
    else match nodes[n].next
      case None => [n]
      case Some(m) => [n] + Follow(nodes, m, fuel - 1)
  }

  function DataOf<T>(nodes: seq<Node<T>>, ps: seq<Ptr>): (vs: seq<T>)
    requires forall i :: 0 <= i < |ps| ==> ps[i] < |nodes|
    ensures |vs| == |ps| && forall i :: 0 <= i < |ps| ==> vs[i] == nodes[ps[i]].data
  {
    seq(|ps|, i requires 0 <= i < |ps| => nodes[ps[i]].data)
  }

  /** The values in the queue: the data of the nodes after the dummy that head points to. */
  function Contents<T>(c: Core<T>): seq<T> {
    var ps := Follow(c.nodes, c.head, |c.nodes|);
    if ps == [] then [] else DataOf(c.nodes, ps[1..])
  }

  ghost predicate InBounds<T>(c: Core<T>, ps: seq<Ptr>) {
    forall i :: 0 <= i < |ps| ==> ps[i] < |c.nodes|
  }

  lemma ChainInBounds<T>(c: Core<T>, a: Chain)
    requires ChainOk(c, a)
    ensures InBounds(c, a.order) && |a.order| <= |c.nodes|
  {
    forall i | 0 <= i < |a.order| ensures a.order[i] < |c.nodes| {
      assert LinkOk(c, a, a.order[i]);
    }
    var all := seq(|c.nodes|, i => i);
    forall i | 0 <= i < |a.order| ensures a.order[i] in all {
      assert all[a.order[i]] == a.order[i];
    }
    Pigeonhole.DistinctBound(a.order, all);
  }

  lemma {:induction false} FollowChain<T>(c: Core<T>, a: Chain, i: nat, fuel: nat)
    requires ChainOk(c, a) && i < |a.order| && fuel >= |a.order| - i
    ensures Follow(c.nodes, a.order[i], fuel) == a.order[i..]
    decreases fuel
  {
    assert LinkOk(c, a, a.order[i]);
    if i + 1 < |a.order| {
      FollowChain(c, a, i + 1, fuel - 1);
    }
  }

  /** The data of the chain strictly after head. */
  ghost function After<T>(c: Core<T>, a: Chain): (vs: seq<T>)
    requires c.head in a.rank && a.rank[c.head] < |a.order| && InBounds(c, a.order)
  {
    DataOf(c.nodes, a.order[a.rank[c.head] + 1..])
  }

  /** The queue holds the data of the chain strictly after head. */
  lemma ContentsOfChain<T>(c: Core<T>, a: Chain)
    requires ChainOk(c, a)
    ensures InBounds(c, a.order)
    ensures Follow(c.nodes, c.head, |c.nodes|) == a.order[a.rank[c.head]..]
    ensures Contents(c) == After(c, a)
  {
    ChainInBounds(c, a);
    FollowChain(c, a, a.rank[c.head], |c.nodes|);
    assert a.order[a.rank[c.head]..][1..] == a.order[a.rank[c.head] + 1..];
  }

  /** The change an effect makes to the abstract queue. */
  ghost predicate Transforms<T>(c: Core<T>, e: Effect<T>, before: seq<T>, after: seq<T>) {
    match e
    case Link(_, n) => n < |c.nodes| && after == before + [c.nodes[n].data]
    case HeadTo(x) => x < |c.nodes| && before != [] && before[0] == c.nodes[x].data && after == before[1..]
    case _ => after == before
  }

  lemma LinkAppends<T>(c: Core<T>, a: Chain, c': Core<T>, a': Chain, n: Ptr)
    requires Indexed(a) && c.head in a.rank && InBounds(c, a.order) && n < |c.nodes|
    requires c'.head == c.head && a'.order == a.order + [n] && c.head in a'.rank && a'.rank[c.head] == a.rank[c.head]
    requires InBounds(c', a'.order) && |c'.nodes| == |c.nodes|
    requires forall x :: 0 <= x < |c.nodes| ==> c'.nodes[x].data == c.nodes[x].data
    ensures After(c', a') == After(c, a) + [c.nodes[n].data]
  {
    var h := a.rank[c.head] + 1;
    assert a'.order[h..] == a.order[h..] + [n];
  }

  lemma DataOfFirst<T>(nodes: seq<Node<T>>, ps: seq<Ptr>)
    requires ps != [] && forall i :: 0 <= i < |ps| ==> ps[i] < |nodes|
    ensures DataOf(nodes, ps) == [nodes[ps[0]].data] + DataOf(nodes, ps[1..])
  {
  }

  lemma HeadToTakes<T>(c: Core<T>, a: Chain, x: Ptr)
    requires Indexed(a) && Succ(a, c.head, x) && InBounds(c, a.order)
    ensures x < |c.nodes| && After(c, a) == [c.nodes[x].data] + After(c.(head := x), a)
  {
    assert a.order[a.rank[x]] == x;
    DataOfFirst(c.nodes, a.order[a.rank[x]..]);
    assert a.order[a.rank[x]..][1..] == a.order[a.rank[x] + 1..];
  }

  lemma RestKeepsAfter<T>(c: Core<T>, a: Chain, c': Core<T>)
    requires Indexed(a) && c.head in a.rank && c'.head == c.head && InBounds(c, a.order) && |c.nodes| <= |c'.nodes|
    requires forall x :: 0 <= x < |c.nodes| ==> c'.nodes[x].data == c.nodes[x].data
    ensures After(c', a) == After(c, a)
  {
    var ps := a.order[a.rank[c.head] + 1..];
    assert DataOf(c'.nodes, ps) == DataOf(c.nodes, ps);
  }

  lemma EffectOnChain<T>(c: Core<T>, a: Chain, e: Effect<T>)
    requires Indexed(a) && c.head in a.rank && InBounds(c, a.order) && EffectOk(c, a, e)
    requires InBounds(ApplyCore(c, e), NextChain(a, e).order)
    ensures ApplyCore(c, e).head in NextChain(a, e).rank
    ensures NextChain(a, e).rank[ApplyCore(c, e).head] < |NextChain(a, e).order|
    ensures Transforms(c, e, After(c, a), After(ApplyCore(c, e), NextChain(a, e)))
  {
    if e.Link? {
      LinkAppends(c, a, ApplyCore(c, e), NextChain(a, e), e.n);
    } else if e.HeadTo? {
      HeadToTakes(c, a, e.x);
    } else {
      RestKeepsAfter(c, a, ApplyCore(c, e));
    }
  }

  lemma EffectOnContents<T>(c: Core<T>, a: Chain, e: Effect<T>)
    requires ChainOk(c, a) && EffectOk(c, a, e)
    ensures Transforms(c, e, Contents(c), Contents(ApplyCore(c, e)))
  {
    EffectKeepsChain(c, a, e);
    ContentsOfChain(c, a);
    ContentsOfChain(ApplyCore(c, e), NextChain(a, e));
    EffectOnChain(c, a, e);
  }

  /** The link compare-exchange appends, the head compare-exchange removes the first element, no other step matters. */
  lemma StepOnContents<T>(s: State<T>, a: Chain, t: Tid, c: Choice<T>)
    requires InvChain(s, a) && t < |s.pcs|
    ensures Transforms(s.core, Micro(s, t, c).1, Contents(s.core), Contents(Step(s, t, c).core))
  {
    MicroOk(s, a, t, c);
    EffectOnContents(s.core, a, Micro(s, t, c).1);
  }

  // ----- the atomic queue

  /** An operation in progress; `sawEmpty` records that the queue was empty at some instant of the call. */
  datatype Op<T> = Quiet | Enqueuing(v: T) | Enqueued | Dequeuing(sawEmpty: bool) | Dequeued(v: T)

  datatype Atomic<T> = Atomic(contents: seq<T>, ops: seq<Op<T>>)

  /** What a client sees of a step. */
  datatype Event<T> = Internal | CallEnqueue(v: T) | ReturnEnqueue | CallDequeue | ReturnDequeue(r: Option<T>)

  ghost predicate AtomicStep<T>(q: Atomic<T>, q': Atomic<T>, t: Tid, e: Event<T>) {
    && t < |q.ops|
    && match e
      case CallEnqueue(v) => q.ops[t] == Quiet && q' == q.(ops := q.ops[t := Enqueuing(v)])
      case ReturnEnqueue => q.ops[t] == Enqueued && q' == q.(ops := q.ops[t := Quiet])
      case CallDequeue => q.ops[t] == Quiet && q' == q.(ops := q.ops[t := Dequeuing(false)])
      case ReturnDequeue(None) => q.ops[t] == Dequeuing(true) && q' == q.(ops := q.ops[t := Quiet])
      case ReturnDequeue(Some(v)) => q.ops[t] == Dequeued(v) && q' == q.(ops := q.ops[t := Quiet])
      case Internal =>
        || q' == q
        || (q.ops[t].Enqueuing? && q' == Atomic(q.contents + [q.ops[t].v], q.ops[t := Enqueued]))
        || (q.ops[t].Dequeuing? && q.contents != [] &&
            q' == Atomic(q.contents[1..], q.ops[t := Dequeued(q.contents[0])]))
        || (q.ops[t].Dequeuing? && q.contents == [] && q' == q.(ops := q.ops[t := Dequeuing(true)]))
  }

  function AtomicInit<T>(n: nat): Atomic<T> {
    Atomic([], seq(n, _ => Quiet))
  }

  /** The calls and returns of the machine. */
  function EventOf<T>(s: State<T>, t: Tid, c: Choice<T>): Event<T>
    requires t < |s.pcs|
  {
    match s.pcs[t]
    case Idle => (match c case Enqueue(v) => CallEnqueue(v) case Dequeue => CallDequeue case _ => Internal)
    case Enq(e) => if e.E66? then ReturnEnqueue else Internal
    case Deq(d) => if d.Returning? then ReturnDequeue(d.res) else Internal
    case _ => Internal
  }

  // ----- simulation

  /** The operation that a program counter amounts to. */
  ghost predicate Matches<T>(c: Core<T>, pc: Pc<T>, op: Op<T>) {
    match pc
    case Enq(e) =>
      if e.E63? || e.E66? then op == Enqueued
      else e.n < |c.nodes| && op == Enqueuing(c.nodes[e.n].data)
    case Deq(d) => DeqMatches(c, d, op)
    case Ret(v, _) => op == Dequeued(v)
    case _ => op == Quiet
  }

  ghost predicate DeqMatches<T>(c: Core<T>, d: DeqPc<T>, op: Op<T>) {
    match d
    case D94(_, _, _, _, nx) => op.Dequeuing? && (nx.None? ==> op.sawEmpty)
    case D97(_, _, _, _, nx) => op.Dequeuing? && (nx.None? ==> op.sawEmpty)
    case D118(_, _, _, nxt) => nxt < |c.nodes| && op == Dequeued(c.nodes[nxt].data)
    case Releasing(_, _, out) => op == if out.Took? then Dequeued(out.v) else Dequeuing(true)
    case Returning(res) => op == if res.Some? then Dequeued(res.value) else Dequeuing(true)
    case _ => op.Dequeuing?
  }

  ghost predicate Simulates<T>(s: State<T>, q: Atomic<T>) {
    && q.contents == Contents(s.core)
    && |q.ops| == |s.pcs|
    && forall t :: 0 <= t < |s.pcs| ==> Matches(s.core, s.pcs[t], q.ops[t])
  }

  /** The operation of thread `t` after its step. */
  ghost function NextOp<T>(s: State<T>, t: Tid, c: Choice<T>, op: Op<T>): Op<T>
    requires t < |s.pcs|
  {
    match EventOf(s, t, c)
    case CallEnqueue(v) => Enqueuing(v)
    case CallDequeue => Dequeuing(false)
    case ReturnEnqueue => Quiet
    case ReturnDequeue(_) => Quiet
    case Internal => var (pc', e) := Micro(s, t, c); NextInternal(s.core, pc', e, op)
  }

  ghost function NextInternal<T>(k: Core<T>, pc': Pc<T>, e: Effect<T>, op: Op<T>): Op<T> {
    if e.Link? then Enqueued
    else if e.HeadTo? && e.x < |k.nodes| then Dequeued(k.nodes[e.x].data)
    else if pc'.Deq? && pc'.d.D94? && pc'.d.nx.None? then Dequeuing(true)
    else op
  }

  /** A null `next` read from a node that was once head means the queue is empty right now. */
  lemma NullNextMeansEmpty<T>(s: State<T>, a: Chain, x: Ptr)
    requires ChainOk(s.core, a) && HeadSeen(s.core, a, x) && NextOf(s.core, x).None?
    ensures Contents(s.core) == []
  {
    assert LinkOk(s.core, a, x);
    ContentsOfChain(s.core, a);
  }

  lemma DequeueMovesOn<T>(s: State<T>, d: DeqPc<T>, spurious: bool, op: Op<T>)
    requires DeqMatches(s.core, d, op)
    requires d.D115? ==> d.nxt < |s.core.nodes|
    ensures var (pc', e) := StepDequeue(s, d, spurious);
      && ApplyCore(s.core, e).nodes == s.core.nodes
      && Matches(s.core, pc', if d.Returning? then Quiet else NextInternal(s.core, pc', e, op))
  {
  }

  lemma EnqueueMovesOn<T>(k: Core<T>, p: EnqPc, spurious: bool, op: Op<T>)
    requires Matches(k, Enq(p), op)
    ensures var (pc', e) := StepEnqueue(k, p, spurious);
      Matches(ApplyCore(k, e), pc', if p.E66? then Quiet else NextInternal(k, pc', e, op))
  {
  }

  lemma RetireMovesOn<T>(s: State<T>, t: Tid, v: T, r: RetPc)
    ensures var (pc', e) := StepRetire(s.bins, t, v, r);
      ApplyCore(s.core, e) == s.core && Matches(s.core, pc', NextInternal(s.core, pc', e, Dequeued(v)))
  {
  }

  lemma ScanMovesOn<T>(s: State<T>, p: ScanPc)
    ensures var (pc', e) := StepScan(s, p);
      ApplyCore(s.core, e) == s.core && Matches(s.core, pc', NextInternal(s.core, pc', e, Quiet))
  {
  }

  /** The acting thread's next program counter matches its next operation. */
  lemma ActingThreadMatches<T>(s: State<T>, a: Chain, t: Tid, c: Choice<T>, op: Op<T>)
    requires ChainOk(s.core, a) && t < |s.pcs| && ThreadOk(s.core, a, s.pcs[t]) && Matches(s.core, s.pcs[t], op)
    ensures var (pc', e) := Micro(s, t, c); Matches(ApplyCore(s.core, e), pc', NextOp(s, t, c, op))
  {
    match s.pcs[t]
    case Idle =>
    case Enq(p) => EnqueueMovesOn(s.core, p, c.Spurious?, op);
    case Deq(d) =>
      if d.D115? {
        assert LinkOk(s.core, a, d.nxt);
      }
      DequeueMovesOn(s, d, c.Spurious?, op);
    case Ret(v, r) => RetireMovesOn(s, t, v, r);
    case Scan(p) => ScanMovesOn(s, p);
  }

  lemma OtherThreadMatches<T>(s: State<T>, a: Chain, t: Tid, c: Choice<T>, u: Tid, op: Op<T>)
    requires InvChain(s, a) && t < |s.pcs| && u < |s.pcs| && Matches(s.core, s.pcs[u], op)
    ensures Matches(Step(s, t, c).core, s.pcs[u], op)
  {
    StepKeepsChain(s, a, t, c);
  }

  /** The step of the atomic queue that a step of the machine stands for. */
  ghost predicate Point<T>(s: State<T>, q: Atomic<T>, t: Tid, c: Choice<T>, after: seq<T>)
    requires t < |s.pcs| == |q.ops|
  {
    AtomicStep(q, Atomic(after, q.ops[t := NextOp(s, t, c, q.ops[t])]), t, EventOf(s, t, c))
  }

  lemma DequeuePoint<T>(s: State<T>, q: Atomic<T>, t: Tid, c: Choice<T>, after: seq<T>)
    requires t < |s.pcs| == |q.ops| && s.pcs[t].Deq? && DeqMatches(s.core, s.pcs[t].d, q.ops[t])
    requires Transforms(s.core, Micro(s, t, c).1, q.contents, after)
    requires s.pcs[t].d.D93? && NextOf(s.core, s.pcs[t].d.ch).None? ==> q.contents == []
    ensures Point(s, q, t, c, after)
  {
    assert q.ops[t := q.ops[t]] == q.ops;
  }

  lemma OtherPoint<T>(s: State<T>, q: Atomic<T>, t: Tid, c: Choice<T>, after: seq<T>)
    requires t < |s.pcs| == |q.ops| && !s.pcs[t].Deq? && Matches(s.core, s.pcs[t], q.ops[t])
    requires Transforms(s.core, Micro(s, t, c).1, q.contents, after)
    ensures Point(s, q, t, c, after)
  {
    assert q.ops[t := q.ops[t]] == q.ops;
  }

  lemma PointOfEffect<T>(s: State<T>, a: Chain, q: Atomic<T>, t: Tid, c: Choice<T>)
    requires InvChain(s, a) && t < |s.pcs| == |q.ops|
    requires Matches(s.core, s.pcs[t], q.ops[t]) && q.contents == Contents(s.core)
    ensures Point(s, q, t, c, Contents(Step(s, t, c).core))
  {
    var pc, after := s.pcs[t], Contents(Step(s, t, c).core);
    StepOnContents(s, a, t, c);
    if pc.Deq? {
      if pc.d.D93? && NextOf(s.core, pc.d.ch).None? {
        assert ThreadOk(s.core, a, pc);
        NullNextMeansEmpty(s, a, pc.d.ch);
      }
      DequeuePoint(s, q, t, c, after);
    } else {
      OtherPoint(s, q, t, c, after);
    }
  }

  /** One step of the machine is one step of the atomic queue with the same call or return. */
  lemma StepRefines<T>(s: State<T>, a: Chain, q: Atomic<T>, t: Tid, c: Choice<T>) returns (q': Atomic<T>)
    requires InvChain(s, a) && Simulates(s, q) && t < |s.pcs|
    ensures AtomicStep(q, q', t, EventOf(s, t, c)) && Simulates(Step(s, t, c), q')
  {
    q' := Atomic(Contents(Step(s, t, c).core), q.ops[t := NextOp(s, t, c, q.ops[t])]);
    ActingThreadMatches(s, a, t, c, q.ops[t]);
    forall u | 0 <= u < |s.pcs| && u != t ensures Matches(Step(s, t, c).core, s.pcs[u], q.ops[u]) {
      OtherThreadMatches(s, a, t, c, u, q.ops[u]);
    }
    PointOfEffect(s, a, q, t, c);
  }
}
