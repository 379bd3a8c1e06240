/** The bookkeeping of the thread pool, kept by every step of every interleaving. */
module PoolInvariant {
  import opened Wrappers
  import opened ThreadPool
  import opened Sums
  import opened Pigeonhole

  // ----- what a thread contributes

  /** Past line 43 and not yet left through line 60 or 69. */
  function Counted(pc: Pc): int {
    if pc.Worker? && !pc.w.W43? && !pc.w.Gone? then 1 else 0
  }

  /** Has popped a task and not yet decremented `leftover_`. */
  function Owes(pc: Pc): int {
    match pc
    case Worker(w) => if w.W49? || w.W50? || w.W51? then 1 else 0
    case Client(k) => if k.X22? || k.X23? then 1 else 0
  }

  /** Has pushed a task and not yet incremented `leftover_`. */
  function Uncounted(pc: Pc): int {
    if pc.Client? && pc.k.P38? then 1 else 0
  }

  /** The task a thread has popped and neither executed nor drained. */
  function Hand(pc: Pc): seq<Id> {
    match pc
    case Worker(w) => if w.W49? || w.W50? then [w.p] else []
    case Client(k) => if k.X22? then [k.p] else []
  }

  /** The task a worker is calling. */
  function Called(pc: Pc): seq<Id> {
    if pc.Worker? && pc.w.W50? then [pc.w.p] else []
  }

  function InHand(pc: Pc): multiset<Id> {
    multiset(Hand(pc))
  }

  function Running(pc: Pc): multiset<Id> {
    multiset(Called(pc))
  }

  /** The task an enqueue has allocated and not yet pushed. */
  function Offer(pc: Pc): Option<Id> {
    if pc.Client? && (pc.k.P31? || pc.k.P32?) then Some(pc.k.p) else None
  }

  ghost predicate Counters(s: Pool) {
    && s.active == Wrap(Total(s.pcs, Counted))
    && s.leftover == Wrap(Outstanding(s))
  }

  /** First in, first out; a popped task is in hand, executed or drained, a started one running or executed. */
  ghost predicate Books(s: Pool) {
    && s.accepted == s.popped + s.queue
    && Popped(s)
    && multiset(s.started) == Bag(s.pcs, Running) + multiset(s.executed)
  }

  /** Task pointers are fresh: none is accepted twice or offered by two threads. */
  ghost predicate Names(s: Pool) {
    && Distinct(s.accepted)
    && (forall i :: 0 <= i < |s.accepted| ==> s.accepted[i] < s.nextId)
    && (forall t :: 0 <= t < |s.pcs| && Offer(s.pcs[t]).Some? ==>
          Offer(s.pcs[t]).value < s.nextId && Offer(s.pcs[t]).value !in s.accepted)
    && (forall t, u :: 0 <= t < u < |s.pcs| && Offer(s.pcs[t]).Some? ==> Offer(s.pcs[t]) != Offer(s.pcs[u]))
  }

  ghost predicate Inv(s: Pool) {
    Counters(s) && Books(s) && Names(s)
  }

  // ----- one step

  ghost predicate ActiveDelta(s: Pool, pc: Pc, pc': Pc, e: Effect) {
    && Counted(pc') - Counted(pc) == (if e.IncActive? then 1 else if e.DecActive? || e.CasActive? then -1 else 0)
    && (e.CasActive? ==> s.active == e.to + 1)
  }

  ghost predicate LeftDelta(s: Pool, pc: Pc, pc': Pc, e: Effect) {
    && Owes(pc') - Owes(pc) == (if e.Pop? then 1 else if e.DecLeft? then -1 else 0)
    && Uncounted(pc') - Uncounted(pc) == (if e.Push? then 1 else if e.IncLeft? then -1 else 0)
    && (e.Pop? ==> s.queue != [])
  }

  ghost predicate HandDelta(s: Pool, pc: Pc, pc': Pc, e: Effect) {
    match e
    case Pop => s.queue != [] && Hand(pc) == [] && Hand(pc') == [s.queue[0]]
    case Finish(p) => Hand(pc) == [p] && Hand(pc') == []
    case Drain(p) => Hand(pc) == [p] && Hand(pc') == []
    case _ => Hand(pc) == Hand(pc')
  }

  ghost predicate CallDelta(pc: Pc, pc': Pc, e: Effect) {
    match e
    case Start(p) => Called(pc) == [] && Called(pc') == [p]
    case Finish(p) => Called(pc) == [p] && Called(pc') == []
    case _ => Called(pc) == Called(pc')
  }

  ghost predicate OfferDelta(s: Pool, pc: Pc, pc': Pc, e: Effect) {
    match e
    case NewTask => Offer(pc') == Some(s.nextId)
    case Push(p) => Offer(pc) == Some(p) && Offer(pc').None?
    case _ => Offer(pc') == Offer(pc) || Offer(pc').None?
  }

  ghost predicate Deltas(s: Pool, pc: Pc, pc': Pc, e: Effect) {
    && ActiveDelta(s, pc, pc', e) && LeftDelta(s, pc, pc', e) && HandDelta(s, pc, pc', e)
    && CallDelta(pc, pc', e) && OfferDelta(s, pc, pc', e)
  }

  lemma WorkerStep(s: Pool, w: WorkerPc, fail: bool)
    ensures var (w', e) := StepWorker(s, w, fail); Deltas(s, Worker(w), Worker(w'), e)
  {
  }

  lemma ClientStep(s: Pool, k: ClientPc, c: Choice)
    ensures var (k', e) := StepClient(s, k, c); Deltas(s, Client(k), Client(k'), e)
  {
  }

  lemma MicroStep(s: Pool, t: Tid, c: Choice)
    requires t < |s.pcs|
    ensures Deltas(s, s.pcs[t], Micro(s, t, c).0, Micro(s, t, c).1)
  {
    match s.pcs[t]
    case Worker(w) => WorkerStep(s, w, c.Fail?);
    case Client(k) => ClientStep(s, k, c);
  }

  /** The state after thread `t` moves to `pc'` with effect `e`. */
  function Moving(s: Pool, t: Tid, pc': Pc, e: Effect): Pool
    requires t < |s.pcs|
  {
    Apply(s.(pcs := s.pcs[t := pc']), e)
  }

  /** A total over the threads after a step: a new worker contributes nothing yet. */
  lemma TotalAfter(s: Pool, t: Tid, pc': Pc, e: Effect, w: Pc -> int)
    requires t < |s.pcs| && w(Worker(W43)) == 0
    ensures Total(Moving(s, t, pc', e).pcs, w) == Total(s.pcs, w) - w(s.pcs[t]) + w(pc')
  {
    TotalUpdate(s.pcs, t, pc', w);
    TotalAppend(s.pcs[t := pc'], Worker(W43), w);
  }

  lemma BagAfter(s: Pool, t: Tid, pc': Pc, e: Effect, f: Pc -> multiset<Id>)
    requires t < |s.pcs| && f(Worker(W43)) == multiset{}
    ensures Bag(Moving(s, t, pc', e).pcs, f) + f(s.pcs[t]) == Bag(s.pcs, f) + f(pc')
  {
    BagUpdate(s.pcs, t, pc', f);
    BagAppend(s.pcs[t := pc'], Worker(W43), f);
  }

  lemma WrapShift(x: int, d: int)
    ensures Wrap(Wrap(x) + d) == Wrap(x + d)
  {
    assert x == SIZE * (x / SIZE) + x % SIZE;
    WrapMultiple(x % SIZE + d, x / SIZE);
  }

  lemma {:induction false} WrapMultiple(x: int, k: int)
    ensures Wrap(x + SIZE * k) == Wrap(x)
  {
  }

  lemma ActiveStep(s: Pool, t: Tid, pc': Pc, e: Effect)
    requires Counters(s) && t < |s.pcs| && ActiveDelta(s, s.pcs[t], pc', e)
    ensures Moving(s, t, pc', e).active == Wrap(Total(Moving(s, t, pc', e).pcs, Counted))
  {
    TotalAfter(s, t, pc', e, Counted);
    var n := Total(s.pcs, Counted);
    WrapShift(n, 1);
    WrapShift(n, -1);
  }

  /** Queued plus popped and not yet subtracted, minus pushed and not yet added. */
  ghost function Outstanding(s: Pool): int {
    |s.queue| + Total(s.pcs, Owes) - Total(s.pcs, Uncounted)
  }

  lemma OutstandingStep(s: Pool, t: Tid, pc': Pc, e: Effect)
    requires t < |s.pcs| && LeftDelta(s, s.pcs[t], pc', e)
    ensures Outstanding(Moving(s, t, pc', e)) ==
            Outstanding(s) + (if e.IncLeft? then 1 else if e.DecLeft? then -1 else 0)
  {
    TotalAfter(s, t, pc', e, Owes);
    TotalAfter(s, t, pc', e, Uncounted);
  }

  lemma LeftStep(s: Pool, t: Tid, pc': Pc, e: Effect)
    requires s.leftover == Wrap(Outstanding(s)) && t < |s.pcs| && LeftDelta(s, s.pcs[t], pc', e)
    ensures Moving(s, t, pc', e).leftover == Wrap(Outstanding(Moving(s, t, pc', e)))
  {
    OutstandingStep(s, t, pc', e);
    WrapShift(Outstanding(s), if e.IncLeft? then 1 else if e.DecLeft? then -1 else 0);
  }

  lemma Carry(b: multiset<Id>, b': multiset<Id>, w: multiset<Id>, w': multiset<Id>,
              o: multiset<Id>, o': multiset<Id>, x: multiset<Id>)
    requires b' + w == b + w' && w == w' + x && o' == o + x
    ensures b' + o' == b + o
  {
    forall q ensures (b' + o')[q] == (b + o)[q] {
      assert (b' + w)[q] == (b + w')[q];
    }
  }

  lemma Cancel(b: multiset<Id>, b': multiset<Id>, w: multiset<Id>)
    requires b' + w == b + w
    ensures b' == b
  {
    forall q ensures b'[q] == b[q] {
      assert (b' + w)[q] == (b + w)[q];
    }
  }

  lemma Gain(b: multiset<Id>, b': multiset<Id>, w: multiset<Id>, w': multiset<Id>, o: multiset<Id>, x: multiset<Id>)
    requires b' + w == b + w' && w' == w + x
    ensures b' + o == (b + o) + x
  {
    forall q ensures (b' + o)[q] == ((b + o) + x)[q] {
      assert (b' + w)[q] == (b + w')[q];
    }
  }

  /** The popped tasks are those in hand, executed or drained. */
  ghost predicate Popped(s: Pool) {
    multiset(s.popped) == Bag(s.pcs, InHand) + (multiset(s.executed) + multiset(s.drained))
  }

  lemma PopStep(s: Pool, t: Tid, pc': Pc)
    requires Popped(s) && t < |s.pcs| && HandDelta(s, s.pcs[t], pc', Pop)
    ensures Popped(Moving(s, t, pc', Pop))
  {
    var s' := Moving(s, t, pc', Pop);
    BagAfter(s, t, pc', Pop, InHand);
    Gain(Bag(s.pcs, InHand), Bag(s'.pcs, InHand), InHand(s.pcs[t]), InHand(pc'),
         multiset(s.executed) + multiset(s.drained), multiset{s.queue[0]});
  }

  lemma SettleStep(s: Pool, t: Tid, pc': Pc, e: Effect)
    requires Popped(s) && t < |s.pcs| && HandDelta(s, s.pcs[t], pc', e) && (e.Finish? || e.Drain?)
    ensures Popped(Moving(s, t, pc', e))
  {
    var s', x := Moving(s, t, pc', e), multiset{e.p};
    BagAfter(s, t, pc', e, InHand);
    SettledGrow(s, e);
    Carry(Bag(s.pcs, InHand), Bag(s'.pcs, InHand), InHand(s.pcs[t]), InHand(pc'), SettledOf(s), SettledOf(s'), x);
  }

  /** The tasks that are executed or drained. */
  ghost function SettledOf(s: Pool): multiset<Id> {
    multiset(s.executed) + multiset(s.drained)
  }

  lemma SettledGrow(s: Pool, e: Effect)
    requires e.Finish? || e.Drain?
    ensures SettledOf(Apply(s, e)) == SettledOf(s) + multiset{e.p}
  {
  }

  lemma KeepHandStep(s: Pool, t: Tid, pc': Pc, e: Effect)
    requires Popped(s) && t < |s.pcs| && Hand(s.pcs[t]) == Hand(pc') && !e.Pop? && !e.Finish? && !e.Drain?
    ensures Popped(Moving(s, t, pc', e))
  {
    var s' := Moving(s, t, pc', e);
    BagAfter(s, t, pc', e, InHand);
    Cancel(Bag(s.pcs, InHand), Bag(s'.pcs, InHand), InHand(pc'));
  }

  lemma PoppedStep(s: Pool, t: Tid, pc': Pc, e: Effect)
    requires Popped(s) && t < |s.pcs| && HandDelta(s, s.pcs[t], pc', e)
    ensures Popped(Moving(s, t, pc', e))
  {
    if e.Pop? {
      PopStep(s, t, pc');
    } else if e.Finish? || e.Drain? {
      SettleStep(s, t, pc', e);
    } else {
      KeepHandStep(s, t, pc', e);
    }
  }

  lemma StartedStep(s: Pool, t: Tid, pc': Pc, e: Effect)
    requires Books(s) && t < |s.pcs| && CallDelta(s.pcs[t], pc', e)
    ensures var s' := Moving(s, t, pc', e); multiset(s'.started) == Bag(s'.pcs, Running) + multiset(s'.executed)
  {
    var s' := Moving(s, t, pc', e);
    BagAfter(s, t, pc', e, Running);
    var b, b', w, w' := Bag(s.pcs, Running), Bag(s'.pcs, Running), Running(s.pcs[t]), Running(pc');
    var o, o' := multiset(s.executed), multiset(s'.executed);
    if e.Start? {
      Gain(b, b', w, w', o, multiset{e.p});
    } else if e.Finish? {
      Carry(b, b', w, w', o, o', multiset{e.p});
    } else {
      Carry(b, b', w, w', o, o', multiset{});
    }
  }

  lemma QueueStep(s: Pool, t: Tid, pc': Pc, e: Effect)
    requires s.accepted == s.popped + s.queue && t < |s.pcs|
    ensures var s' := Moving(s, t, pc', e); s'.accepted == s'.popped + s'.queue
  {
    if e.Pop? && s.queue != [] {
      assert s.queue == [s.queue[0]] + s.queue[1..];
    }
  }

  lemma NamesStep(s: Pool, t: Tid, pc': Pc, e: Effect)
    requires Names(s) && t < |s.pcs| && OfferDelta(s, s.pcs[t], pc', e)
    ensures Names(Moving(s, t, pc', e))
  {
    var s' := Moving(s, t, pc', e);
    forall u | 0 <= u < |s'.pcs| && Offer(s'.pcs[u]).Some?
      ensures Offer(s'.pcs[u]).value < s'.nextId && Offer(s'.pcs[u]).value !in s'.accepted
    {
      if u < |s.pcs| && u != t {
        assert Offer(s.pcs[u]).value < s.nextId;
        if e.Push? {
          assert if t < u then Offer(s.pcs[t]) != Offer(s.pcs[u]) else Offer(s.pcs[u]) != Offer(s.pcs[t]);
        }
      }
    }
    forall u, x | 0 <= u < x < |s'.pcs| && Offer(s'.pcs[u]).Some? ensures Offer(s'.pcs[u]) != Offer(s'.pcs[x]) {
      if x < |s.pcs| {
        assert Offer(s.pcs[u]).Some? ==> Offer(s.pcs[u]) != Offer(s.pcs[x]);
      }
    }
  }

  lemma MovingKeepsInv(s: Pool, t: Tid, pc': Pc, e: Effect)
    requires Inv(s) && t < |s.pcs| && Deltas(s, s.pcs[t], pc', e)
    ensures Inv(Moving(s, t, pc', e))
  {
    ActiveStep(s, t, pc', e);
    LeftStep(s, t, pc', e);
    PoppedStep(s, t, pc', e);
    StartedStep(s, t, pc', e);
    QueueStep(s, t, pc', e);
    NamesStep(s, t, pc', e);
  }

  lemma StepKeepsInv(s: Pool, t: Tid, c: Choice)
    requires Inv(s) && t < |s.pcs|
    ensures Inv(Step(s, t, c))
  {
    MicroStep(s, t, c);
    MovingKeepsInv(s, t, Micro(s, t, c).0, Micro(s, t, c).1);
  }

  predicate AtRest(pc: Pc) {
    pc == Worker(W43) || pc == Client(Free)
  }

  lemma RestTotals(pcs: seq<Pc>)
    requires forall t :: 0 <= t < |pcs| ==> AtRest(pcs[t])
    ensures Total(pcs, Counted) == 0 && Total(pcs, Owes) == 0 && Total(pcs, Uncounted) == 0
  {
    TotalUniform(pcs, Counted, 0);
    TotalUniform(pcs, Owes, 0);
    TotalUniform(pcs, Uncounted, 0);
  }

  lemma {:induction false} RestBags(pcs: seq<Pc>)
    requires forall t :: 0 <= t < |pcs| ==> AtRest(pcs[t])
    ensures Bag(pcs, InHand) == multiset{} && Bag(pcs, Running) == multiset{}
  {
    if |pcs| > 0 {
      RestBags(pcs[..|pcs| - 1]);
      assert AtRest(pcs[|pcs| - 1]);
    }
  }

  lemma RestCounters(s: Pool)
    requires forall t :: 0 <= t < |s.pcs| ==> AtRest(s.pcs[t])
    requires s.queue == [] && s.active == 0 && s.leftover == 0
    ensures Counters(s)
  {
    RestTotals(s.pcs);
  }

  lemma RestBooks(s: Pool)
    requires forall t :: 0 <= t < |s.pcs| ==> AtRest(s.pcs[t])
    requires s.queue == s.accepted == s.popped == s.started == s.executed == s.drained == []
    ensures Books(s)
  {
    RestBags(s.pcs);
  }

  lemma RestNames(s: Pool)
    requires forall t :: 0 <= t < |s.pcs| ==> AtRest(s.pcs[t])
    requires s.accepted == []
    ensures Names(s)
  {
    assert forall t :: 0 <= t < |s.pcs| ==> Offer(s.pcs[t]).None?;
  }

  lemma InitInv(n: nat, m: nat)
    ensures Inv(Init(n, m))
  {
    var s := Init(n, m);
    assert forall t :: 0 <= t < |s.pcs| ==> AtRest(s.pcs[t]);
    RestCounters(s);
    RestBooks(s);
    RestNames(s);
  }
}
