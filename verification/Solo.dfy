/**
The calls of the queue machine, run alone: the other threads stand still, wherever they are, and no
compare-exchange fails spuriously. Each call ends after some number of steps, and this is what it has done.
*/
module Solo {
  import opened Iteration
  import opened Wrappers
  import opened Machine
  import opened ChainInvariant
  import opened SlotInvariant
  import opened RetireInvariant
  import opened HazardSafety
  import opened Fifo
  import opened Domain

  function Alone<T>(t: Tid): State<T> -> State<T> {
    (s: State<T>) => if t < |s.pcs| then Step(s, t, Proceed) else s
  }

  /** Some number of steps of thread `t` alone leads from `s` to `s'`. */
  ghost predicate Leads<T>(s: State<T>, t: Tid, s': State<T>) {
    Arrives(Alone(t), s, s')
  }

  lemma LeadsNowhere<T>(s: State<T>, t: Tid)
    ensures Leads(s, t, s)
  {
    ArrivesAtOnce(Alone(t), s);
  }

  /** One more step. */
  lemma On<T>(s0: State<T>, s: State<T>, t: Tid) returns (s': State<T>)
    requires Leads(s0, t, s) && t < |s.pcs|
    ensures s' == Step(s, t, Proceed) && Leads(s0, t, s')
  {
    ArrivesNext(Alone(t), s0, s);
    s' := Step(s, t, Proceed);
  }

  /** `s` with thread `t` at `pc`. */
  ghost function At<T>(s: State<T>, t: Tid, pc: Pc<T>): (s': State<T>)
    requires t < |s.pcs|
    ensures |s'.pcs| == |s.pcs| && s'.pcs[t] == pc
  {
    s.(pcs := s.pcs[t := pc])
  }

  /** RegisterThread adds the thread to those that Scan visits. */
  lemma SoloRegister<T>(s: State<T>, t: Tid)
    requires t < |s.pcs| && s.pcs[t] == Idle
    ensures Step(s, t, Register) == s.(bins := s.bins.(registered := s.bins.registered + [t]))
  {
    assert s.pcs[t := Idle] == s.pcs;
  }

  // ----- enqueue

  /** From the first load with tail at the end of the chain. */
  lemma SoloLink<T>(s0: State<T>, s: State<T>, t: Tid, m: Ptr) returns (s': State<T>)
    requires Leads(s0, t, s) && t < |s.pcs| && s.pcs[t] == Enq(E52(m)) && NextOf(s.core, s.core.tail) == None
    ensures Leads(s0, t, s')
    ensures s' == At(s, t, Idle).(core := ApplyCore(ApplyCore(s.core, Link(s.core.tail, m)), TailTo(m)))
  {
    s' := On(s0, s, t);
    s' := On(s0, s', t);
    s' := On(s0, s', t);
    assert s' == At(s, t, Enq(E59(m, s.core.tail)));
    s' := On(s0, s', t);
    s' := On(s0, s', t);
    s' := On(s0, s', t);
    assert s'.pcs == s.pcs[t := Idle];
  }

  /** From the first load with a lagging tail, back to the loop head. */
  lemma SoloHelpTail<T>(s0: State<T>, s: State<T>, t: Tid, m: Ptr) returns (s': State<T>)
    requires Leads(s0, t, s) && t < |s.pcs| && s.pcs[t] == Enq(E52(m)) && NextOf(s.core, s.core.tail).Some?
    ensures Leads(s0, t, s') && s' == s.(core := s.core.(tail := NextOf(s.core, s.core.tail).value))
  {
    s' := On(s0, s, t);
    s' := On(s0, s', t);
    s' := On(s0, s', t);
    s' := On(s0, s', t);
    assert s'.pcs == s.pcs;
  }

  lemma TailNext<T>(c: Core<T>, a: Chain, x: Ptr)
    requires ChainOk(c, a) && NextOf(c, c.tail) == Some(x)
    ensures EffectOk(c, a, TailTo(x)) && NextOf(c, x) == None
  {
    assert LinkOk(c, a, c.tail) && LinkOk(c, a, x);
  }

  lemma LinkContents<T>(c: Core<T>, a: Chain, m: Ptr)
    requires ChainOk(c, a) && Fresh(c, a, m) && NextOf(c, c.tail) == None
    ensures var c' := ApplyCore(ApplyCore(c, Link(c.tail, m)), TailTo(m));
      Contents(c') == Contents(c) + [c.nodes[m].data] && NextOf(c', m) == None && c'.head == c.head
  {
    var e1: Effect<T>, e2: Effect<T> := Link(c.tail, m), TailTo(m);
    var c1, a1 := ApplyCore(c, e1), NextChain(a, e1);
    LinkKeepsChain(c, a, c.tail, m);
    EffectOnContents(c, a, e1);
    assert a.rank[c.tail] + 1 == |a.order|;
    EffectOnContents(c1, a1, e2);
    assert LinkOk(c1, a1, m);
  }

  lemma AllocContents<T>(c: Core<T>, a: Chain, v: T)
    requires ChainOk(c, a)
    ensures var c' := ApplyCore(c, Alloc(v));
      ChainOk(c', a) && Contents(c') == Contents(c) && Fresh(c', a, |c.nodes|) && c'.nodes[|c.nodes|] == Node(v, None)
  {
    var e: Effect<T> := Alloc(v);
    assert LinkOk(c, a, |c.nodes|);
    EffectKeepsChain(c, a, e);
    EffectOnContents(c, a, e);
  }

  /** From the first load with a lagging tail: tail is moved on, the queue stays as it is. */
  lemma SoloCatchUp<T>(s0: State<T>, s: State<T>, a: Chain, t: Tid, m: Ptr) returns (s': State<T>)
    requires Leads(s0, t, s) && t < |s.pcs| && s.pcs[t] == Enq(E52(m)) && ChainOk(s.core, a)
    requires NextOf(s.core, s.core.tail).Some?
    ensures Leads(s0, t, s') && s' == s.(core := s.core.(tail := s'.core.tail)) && ChainOk(s'.core, a)
    ensures Contents(s'.core) == Contents(s.core) && NextOf(s'.core, s'.core.tail) == None
  {
    var x := NextOf(s.core, s.core.tail).value;
    TailNext(s.core, a, x);
    EffectKeepsChain<T>(s.core, a, TailTo(x));
    EffectOnContents<T>(s.core, a, TailTo(x));
    s' := SoloHelpTail(s0, s, t, m);
  }

  /** From the first load with tail at the end: the new node's value is appended. */
  lemma SoloAtEnd<T>(s0: State<T>, s: State<T>, a: Chain, t: Tid, m: Ptr) returns (s': State<T>)
    requires Leads(s0, t, s) && t < |s.pcs| && s.pcs[t] == Enq(E52(m)) && ChainOk(s.core, a) && Fresh(s.core, a, m)
    requires NextOf(s.core, s.core.tail) == None
    ensures Leads(s0, t, s') && s' == At(s, t, Idle).(core := s'.core) && |s'.core.nodes| == |s.core.nodes|
    ensures Contents(s'.core) == Contents(s.core) + [s.core.nodes[m].data]
    ensures s'.core.tail == m && NextOf(s'.core, m) == None && s'.core.head == s.core.head
  {
    LinkContents(s.core, a, m);
    s' := SoloLink(s0, s, t, m);
  }

  /** An enqueue run alone appends its value, leaves tail at the end of the chain and touches nothing else. */
  lemma SoloEnqueue<T>(s: State<T>, a: Chain, t: Tid, v: T) returns (s': State<T>)
    requires ChainOk(s.core, a) && t < |s.pcs| && s.pcs[t] == Idle
    ensures Leads(Step(s, t, Enqueue(v)), t, s') && s' == s.(core := s'.core)
    ensures Contents(s'.core) == Contents(s.core) + [v]
    ensures NextOf(s'.core, s'.core.tail) == None && s'.core.tail == |s.core.nodes| == |s'.core.nodes| - 1
    ensures s'.core.head == s.core.head
  {
    var s0, m := Step(s, t, Enqueue(v)), |s.core.nodes|;
    AllocContents(s.core, a, v);
    LeadsNowhere(s0, t);
    s' := s0;
    if NextOf(s'.core, s'.core.tail).Some? {
      s' := SoloCatchUp(s0, s', a, t, m);
    }
    s' := SoloAtEnd(s0, s', a, t, m);
    assert s'.pcs == s.pcs;
  }

  // ----- acquire

  /** Inside acquire with the mutex held, about to look at slot `c - 1`. */
  ghost function Searching<T>(s: State<T>, t: Tid, first: Option<SlotId>, c: nat): (s': State<T>)
    requires t < |s.pcs|
    ensures |s'.pcs| == |s.pcs|
  {
    At(s, t, Deq(Acquiring(first, A121(c)))).(list := SlotList(Some(t), false))
  }

  /** `s` after thread `t` has got slot `k` out of `slots`. */
  ghost function Served<T>(s: State<T>, t: Tid, first: Option<SlotId>, k: SlotId, slots: seq<Slot>): (s': State<T>)
    requires t < |s.pcs|
    ensures |s'.pcs| == |s.pcs|
  {
    At(s, t, Deq(Acquired(first, k))).(slots := slots, list := SlotList(None, false))
  }

  /** An acquire that finds no free slot, up to line 133. */
  lemma SoloGrow<T>(s0: State<T>, s: State<T>, t: Tid, first: Option<SlotId>) returns (s': State<T>)
    requires t < |s.pcs| && Leads(s0, t, Searching(s, t, first, 0))
    ensures Leads(s0, t, s')
    ensures s' == At(s, t, Deq(Acquiring(first, A133(|s.slots|)))).(
      slots := s.slots + [Slot(None, Some(t))], list := SlotList(Some(t), true))
  {
    s' := On(s0, Searching(s, t, first, 0), t);
    assert s'.pcs == s.pcs[t := Deq(Acquiring(first, A133(|s.slots|)))];
  }

  lemma {:induction false} SoloSearch<T>(s0: State<T>, s: State<T>, t: Tid, first: Option<SlotId>, c: nat)
    requires t < |s.pcs| && c <= |s.slots| && Leads(s0, t, Searching(s, t, first, c))
    ensures var p := PickSlot(s.slots, c);
      Leads(s0, t, Served(s, t, first, p,
        if p < |s.slots| then s.slots[p := s.slots[p].(owner := Some(t))] else s.slots + [Slot(None, Some(t))]))
    decreases c
  {
    if c == 0 {
      var s' := SoloGrow(s0, s, t, first);
      s' := On(s0, s', t);
      assert s'.pcs == s.pcs[t := Deq(Acquired(first, |s.slots|))];
    } else {
      var s' := On(s0, Searching(s, t, first, c), t);
      if s.slots[c - 1].owner == None {
        assert s'.pcs == s.pcs[t := Deq(Acquired(first, c - 1))];
      } else {
        assert s'.pcs == Searching(s, t, first, c - 1).pcs;
        SoloSearch(s0, s, t, first, c - 1);
      }
    }
  }

  /**
  An acquire run alone takes the newest slot without owner, or a new slot when all are owned: what the method
  Acquire does. Only a slot given back while it walks can make it create a slot needlessly.
  */
  lemma SoloAcquire<T>(s0: State<T>, s: State<T>, t: Tid, first: Option<SlotId>) returns (s': State<T>)
    requires Leads(s0, t, s) && t < |s.pcs| && s.list == SlotList(None, false)
    requires s.pcs[t] == Deq(if first.None? then D81 else D82(first.value))
    ensures Leads(s0, t, s')
    ensures s' == Served(s, t, first, PickSlot(s.slots, |s.slots|), AcquireSlot(s.slots, t))
  {
    s' := On(s0, s, t);
    assert s' == Searching(s, t, first, |s.slots|);
    SoloSearch(s0, s, t, first, |s.slots|);
    s' := Served(s, t, first, PickSlot(s.slots, |s.slots|), AcquireSlot(s.slots, t));
  }

  // ----- dequeue

  /** From line 85 to the dereference of line 93. */
  lemma SoloValidate<T>(s0: State<T>, s: State<T>, t: Tid, a: SlotId, b: SlotId) returns (s': State<T>)
    requires Leads(s0, t, s) && t < |s.pcs| && s.pcs[t] == Deq(D85(a, b)) && a < |s.slots|
    ensures Leads(s0, t, s')
    ensures s' == At(s, t, Deq(D93(a, b, s.core.head, s.core.tail))).(
      slots := s.slots[a := s.slots[a].(ptr := Some(s.core.head))])
  {
    s' := On(s0, s, t);
    s' := On(s0, s', t);
    s' := On(s0, s', t);
    s' := On(s0, s', t);
    assert s'.pcs == s.pcs[t := Deq(D93(a, b, s.core.head, s.core.tail))];
  }

  /** Where line 97 leads when head has not moved. */
  ghost function Chosen<T>(c: Core<T>, a: SlotId, b: SlotId): DeqPc<T> {
    match NextOf(c, c.head)
    case None => Releasing([a, b], false, Empty)
    case Some(m) => if c.head == c.tail then D110(a, b, c.head, c.tail, m) else D115(a, b, c.head, c.tail, m)
  }

  /** From the dereference of line 93 to the decision after line 97. */
  lemma SoloDecide<T>(s0: State<T>, s: State<T>, t: Tid, a: SlotId, b: SlotId) returns (s': State<T>)
    requires Leads(s0, t, s) && t < |s.pcs| && s.pcs[t] == Deq(D93(a, b, s.core.head, s.core.tail)) && b < |s.slots|
    ensures Leads(s0, t, s')
    ensures s' == At(s, t, Deq(Chosen(s.core, a, b))).(
      slots := s.slots[b := s.slots[b].(ptr := NextOf(s.core, s.core.head))])
  {
    s' := On(s0, s, t);
    s' := On(s0, s', t);
    s' := On(s0, s', t);
    assert s'.pcs == s.pcs[t := Deq(Chosen(s.core, a, b))];
  }

  /** The head swing and the read of the value. */
  lemma SoloTake<T>(s0: State<T>, s: State<T>, t: Tid, a: SlotId, b: SlotId, m: Ptr) returns (s': State<T>)
    requires Leads(s0, t, s) && t < |s.pcs| && s.pcs[t] == Deq(D115(a, b, s.core.head, s.core.tail, m))
    requires m < |s.core.nodes|
    ensures Leads(s0, t, s')
    ensures s' == At(s, t, Deq(Releasing([a, b], false, Took(s.core.head, s.core.nodes[m].data)))).(
      core := s.core.(head := m))
  {
    s' := On(s0, s, t);
    s' := On(s0, s', t);
    assert s'.pcs == s.pcs[t := Deq(Releasing([a, b], false, Took(s.core.head, s.core.nodes[m].data)))];
  }

  /** Helping a lagging tail, back to the loop head. */
  lemma SoloHelp<T>(s0: State<T>, s: State<T>, t: Tid, a: SlotId, b: SlotId, m: Ptr) returns (s': State<T>)
    requires Leads(s0, t, s) && t < |s.pcs| && s.pcs[t] == Deq(D110(a, b, s.core.head, s.core.tail, m))
    ensures Leads(s0, t, s') && s' == At(s, t, Deq(D85(a, b))).(core := s.core.(tail := m))
  {
    s' := On(s0, s, t);
  }

  /** One slot is cleared and given back. */
  lemma SoloGiveBack<T>(s0: State<T>, s: State<T>, t: Tid, todo: seq<SlotId>, out: Outcome<T>) returns (s': State<T>)
    requires Leads(s0, t, s) && t < |s.pcs| && s.pcs[t] == Deq(Releasing(todo, false, out))
    requires todo != [] && todo[0] < |s.slots|
    ensures Leads(s0, t, s')
    ensures s' == At(s, t, Deq(Releasing(todo[1..], false, out))).(slots := s.slots[todo[0] := Slot(None, None)])
  {
    s' := On(s0, s, t);
    s' := On(s0, s', t);
    assert s'.slots == s.slots[todo[0] := Slot(None, None)];
    assert s'.pcs == s.pcs[t := Deq(Releasing(todo[1..], false, out))];
  }

  /** What dequeue does after its releases. */
  ghost function Finishing<T>(out: Outcome<T>): Pc<T> {
    if out.Empty? then Deq(Returning(None)) else Ret(out.v, R269(out.ch))
  }

  /** Both slots are given back. */
  lemma SoloRelease<T>(s0: State<T>, s: State<T>, t: Tid, a: SlotId, b: SlotId, out: Outcome<T>)
    returns (s': State<T>)
    requires Leads(s0, t, s) && t < |s.pcs| && s.pcs[t] == Deq(Releasing([a, b], false, out))
    requires a < |s.slots| && b < |s.slots|
    ensures Leads(s0, t, s')
    ensures s' == At(s, t, Finishing(out)).(slots := s.slots[a := Slot(None, None)][b := Slot(None, None)])
  {
    assert [a, b][1..] == [b] && [b][1..] == [];
    s' := SoloGiveBack(s0, s, t, [a, b], out);
    s' := SoloGiveBack(s0, s', t, [b], out);
    s' := On(s0, s', t);
    assert s'.pcs == s.pcs[t := Finishing(out)];
  }

  /** `slots'` is `slots` and perhaps more free slots. */
  ghost predicate Padded(slots: seq<Slot>, slots': seq<Slot>) {
    slots <= slots' && forall k :: |slots| <= k < |slots'| ==> slots'[k] == Slot(None, None)
  }

  ghost predicate Unchanged(slots: seq<Slot>, slots': seq<Slot>, k: SlotId) {
    k < |slots| && k < |slots'| && slots'[k] == slots[k]
  }

  /** `slots'` is `slots` with `a` and `b`, which were free, changed, and perhaps longer by those two. */
  ghost predicate Borrowed(slots: seq<Slot>, slots': seq<Slot>, a: SlotId, b: SlotId) {
    && |slots| <= |slots'| && a < |slots'| && b < |slots'| && a != b
    && (forall k :: 0 <= k < |slots'| ==> k == a || k == b || Unchanged(slots, slots', k))
    && (a < |slots| ==> slots[a] == Slot(None, None))
    && (b < |slots| ==> slots[b] == Slot(None, None))
  }

  lemma GivenBack(slots: seq<Slot>, slots': seq<Slot>, a: SlotId, b: SlotId)
    requires Borrowed(slots, slots', a, b)
    ensures Padded(slots, slots'[a := Slot(None, None)][b := Slot(None, None)])
  {
    var slots1 := slots'[a := Slot(None, None)][b := Slot(None, None)];
    forall k | 0 <= k < |slots'| ensures slots1[k] == if k < |slots| then slots[k] else Slot(None, None) {
      assert k == a || k == b || Unchanged(slots, slots', k);
    }
    assert slots1[..|slots|] == slots;
  }

  lemma BorrowedStore(slots: seq<Slot>, slots': seq<Slot>, a: SlotId, b: SlotId, k: SlotId, x: Slot)
    requires Borrowed(slots, slots', a, b) && (k == a || k == b)
    ensures Borrowed(slots, slots'[k := x], a, b)
  {
    var slots1 := slots'[k := x];
    forall j | 0 <= j < |slots1| ensures j == a || j == b || Unchanged(slots, slots1, j) {
      assert j == a || j == b || Unchanged(slots, slots', j);
    }
  }

  /** Up to line 85 with two slots in hand. */
  lemma SoloBothSlots<T>(s0: State<T>, s: State<T>, t: Tid) returns (s': State<T>, a: SlotId, b: SlotId)
    requires Leads(s0, t, s) && t < |s.pcs| && s.pcs[t] == Deq(D81) && s.list == SlotList(None, false)
    requires forall k :: 0 <= k < |s.slots| && s.slots[k].owner.None? ==> s.slots[k].ptr.None?
    ensures Leads(s0, t, s') && s' == At(s, t, Deq(D85(a, b))).(slots := s'.slots)
    ensures Borrowed(s.slots, s'.slots, a, b)
    ensures a == PickSlot(s.slots, |s.slots|) && b == PickSlot(AcquireSlot(s.slots, t), |AcquireSlot(s.slots, t)|)
    ensures s'.slots == AcquireSlot(AcquireSlot(s.slots, t), t)
  {
    a := PickSlot(s.slots, |s.slots|);
    s' := SoloAcquire(s0, s, t, None);
    assert s'.slots[a].owner == Some(t);
    b := PickSlot(s'.slots, |s'.slots|);
    s' := SoloAcquire(s0, s', t, Some(a));
    assert s'.pcs == s.pcs[t := Deq(D85(a, b))];
  }

  /** The loop of dequeue from line 85 to the releases, when tail does not lag behind head. */
  lemma SoloRound<T>(s0: State<T>, s: State<T>, t: Tid, a: SlotId, b: SlotId, slots: seq<Slot>) returns (s': State<T>)
    requires Leads(s0, t, s) && t < |s.pcs| && s.pcs[t] == Deq(D85(a, b)) && Borrowed(slots, s.slots, a, b)
    ensures Leads(s0, t, s') && s' == At(s, t, Deq(Chosen(s.core, a, b))).(slots := s'.slots)
    ensures Borrowed(slots, s'.slots, a, b)
  {
    s' := SoloValidate(s0, s, t, a, b);
    s' := SoloDecide(s0, s', t, a, b);
    var slots1 := s.slots[a := s.slots[a].(ptr := Some(s.core.head))];
    BorrowedStore(slots, s.slots, a, b, a, s.slots[a].(ptr := Some(s.core.head)));
    BorrowedStore(slots, slots1, a, b, b, slots1[b].(ptr := NextOf(s.core, s.core.head)));
    assert s'.pcs == s.pcs[t := Deq(Chosen(s.core, a, b))];
  }

  /** What head's `next` says about the queue. */
  lemma HeadNext<T>(c: Core<T>, a: Chain)
    requires ChainOk(c, a)
    ensures NextOf(c, c.head).None? <==> Contents(c) == []
    ensures NextOf(c, c.head).Some? ==>
      var m := NextOf(c, c.head).value;
      && Succ(a, c.head, m) && m < |c.nodes|
      && (c.head != c.tail ==> EffectOk(c, a, HeadTo(m)))
      && (c.head == c.tail ==> EffectOk(c, a, TailTo(m)))
  {
    assert LinkOk(c, a, c.head);
    ContentsOfChain(c, a);
    if NextOf(c, c.head).Some? {
      assert LinkOk(c, a, NextOf(c, c.head).value);
    }
  }

  /** A round that finds tail lagging moves it on and comes back to line 85. */
  lemma SoloHelpRound<T>(s0: State<T>, s: State<T>, ch: Chain, t: Tid, a: SlotId, b: SlotId, slots: seq<Slot>)
    returns (s': State<T>)
    requires ChainOk(s.core, ch) && Contents(s.core) != [] && s.core.head == s.core.tail
    requires Leads(s0, t, s) && t < |s.pcs| && s.pcs[t] == Deq(D85(a, b)) && Borrowed(slots, s.slots, a, b)
    ensures Leads(s0, t, s') && Borrowed(slots, s'.slots, a, b) && s' == s.(slots := s'.slots, core := s'.core)
    ensures ChainOk(s'.core, ch) && s'.core.head == s.core.head != s'.core.tail && Contents(s'.core) == Contents(s.core)
  {
    HeadNext(s.core, ch);
    var m := NextOf(s.core, s.core.head).value;
    s' := SoloRound(s0, s, t, a, b, slots);
    EffectKeepsChain<T>(s.core, ch, TailTo(m));
    EffectOnContents<T>(s.core, ch, TailTo(m));
    s' := SoloHelp(s0, s', t, a, b, m);
    assert s'.pcs == s.pcs;
  }

  /** Line 85 with something to take, tail up to date or not, up to the releases. */
  lemma SoloPass<T>(s0: State<T>, s: State<T>, ch: Chain, t: Tid, a: SlotId, b: SlotId, slots: seq<Slot>)
    returns (s': State<T>)
    requires ChainOk(s.core, ch) && Contents(s.core) != []
    requires Leads(s0, t, s) && t < |s.pcs| && s.pcs[t] == Deq(D85(a, b)) && Borrowed(slots, s.slots, a, b)
    ensures Leads(s0, t, s') && Borrowed(slots, s'.slots, a, b)
    ensures s' == At(s, t, Deq(Releasing([a, b], false, Took(s.core.head, Contents(s.core)[0])))).(
      slots := s'.slots, core := s'.core)
    ensures Contents(s'.core) == Contents(s.core)[1..]
    decreases s.core.head == s.core.tail
  {
    if s.core.head == s.core.tail {
      s' := SoloHelpRound(s0, s, ch, t, a, b, slots);
      s' := SoloPass(s0, s', ch, t, a, b, slots);
    } else {
      HeadNext(s.core, ch);
      var m := NextOf(s.core, s.core.head).value;
      s' := SoloRound(s0, s, t, a, b, slots);
      EffectOnContents<T>(s.core, ch, HeadTo(m));
      s' := SoloTake(s0, s', t, a, b, m);
    }
    assert s'.pcs == s.pcs[t := s'.pcs[t]];
  }

  lemma SoloGivesBack<T>(s0: State<T>, s: State<T>, t: Tid, a: SlotId, b: SlotId, out: Outcome<T>, slots: seq<Slot>)
    returns (s': State<T>)
    requires Leads(s0, t, s) && t < |s.pcs| && s.pcs[t] == Deq(Releasing([a, b], false, out))
    requires Borrowed(slots, s.slots, a, b)
    ensures Leads(s0, t, s') && s' == At(s, t, Finishing(out)).(slots := s'.slots) && Padded(slots, s'.slots)
  {
    GivenBack(slots, s.slots, a, b);
    s' := SoloRelease(s0, s, t, a, b, out);
  }

  lemma SoloFindsEmpty<T>(s0: State<T>, s: State<T>, a: Chain, t: Tid) returns (s': State<T>)
    requires Leads(s0, t, s) && t < |s.pcs| && s.pcs[t] == Deq(D81) && s.list == SlotList(None, false)
    requires ChainOk(s.core, a) && Contents(s.core) == []
    requires forall k :: 0 <= k < |s.slots| && s.slots[k].owner.None? ==> s.slots[k].ptr.None?
    ensures Leads(s0, t, s') && Padded(s.slots, s'.slots) && s' == At(s, t, Deq(Returning(None))).(slots := s'.slots)
  {
    var k1, k2;
    s', k1, k2 := SoloBothSlots(s0, s, t);
    HeadNext(s.core, a);
    s' := SoloRound(s0, s', t, k1, k2, s.slots);
    s' := SoloGivesBack(s0, s', t, k1, k2, Empty, s.slots);
    assert s'.pcs == s.pcs[t := Deq(Returning(None))];
  }

  lemma SoloFindsFirst<T>(s0: State<T>, s: State<T>, a: Chain, t: Tid) returns (s': State<T>)
    requires Leads(s0, t, s) && t < |s.pcs| && s.pcs[t] == Deq(D81) && s.list == SlotList(None, false)
    requires ChainOk(s.core, a) && Contents(s.core) != []
    requires forall k :: 0 <= k < |s.slots| && s.slots[k].owner.None? ==> s.slots[k].ptr.None?
    ensures Leads(s0, t, s') && Padded(s.slots, s'.slots)
    ensures s'.pcs == s.pcs[t := Ret(Contents(s.core)[0], R269(s.core.head))]
    ensures s'.list == s.list && s'.bins == s.bins && Contents(s'.core) == Contents(s.core)[1..]
  {
    var out := Took(s.core.head, Contents(s.core)[0]);
    var s1, k1, k2 := SoloBothSlots(s0, s, t);
    var s2 := SoloPass(s0, s1, a, t, k1, k2, s.slots);
    assert s2.pcs == s1.pcs[t := Deq(Releasing([k1, k2], false, out))];
    s' := SoloGivesBack(s0, s2, t, k1, k2, out, s.slots);
    assert s'.pcs == s.pcs[t := Finishing(out)];
  }

  /**
  A dequeue run alone, up to RetirePointer or its return: it takes the first value of the queue, or reports
  an empty queue; it gives its slots back and touches nothing else.
  */
  lemma SoloDequeue<T>(s: State<T>, a: Chain, t: Tid) returns (s': State<T>)
    requires Inv(s, a) && t < |s.pcs| && s.pcs[t] == Idle && s.list.lock == None
    ensures Leads(Step(s, t, Dequeue), t, s') && Padded(s.slots, s'.slots)
    ensures Contents(s.core) == [] ==> s' == At(s, t, Deq(Returning(None))).(slots := s'.slots)
    ensures Contents(s.core) != [] ==>
      && s' == At(s, t, Ret(Contents(s.core)[0], R269(s.core.head))).(slots := s'.slots, core := s'.core)
      && Contents(s'.core) == Contents(s.core)[1..]
  {
    var s0 := Step(s, t, Dequeue);
    LeadsNowhere(s0, t);
    if Contents(s.core) == [] {
      s' := SoloFindsEmpty(s0, s0, a, t);
    } else {
      s' := SoloFindsFirst(s0, s0, a, t);
    }
    assert s'.pcs == s.pcs[t := s'.pcs[t]];
  }

  // ----- RetirePointer

  /** The lists after RetirePointer of `p` by `t`, as the method RetirePointer leaves them. */
  ghost function HandedOver(b: Bins, t: Tid, p: Ptr): Bins
    requires t < |b.locals|
  {
    var l := b.locals[t] + [p];
    if |l| < LOCAL_THRESHOLD then b.(locals := b.locals[t := l])
    else b.(locals := b.locals[t := []], global := b.global + l)
  }

  lemma SoloAppend<T>(s0: State<T>, s: State<T>, t: Tid, v: T, p: Ptr) returns (s': State<T>)
    requires Leads(s0, t, s) && t < |s.pcs| && t < |s.bins.locals| && s.pcs[t] == Ret(v, R269(p))
    ensures var l := s.bins.locals[t] + [p];
      && Leads(s0, t, s')
      && s' == At(s, t, if |l| >= LOCAL_THRESHOLD then Ret(v, R276) else Deq(Returning(Some(v)))).(
           bins := s.bins.(locals := s.bins.locals[t := l]))
  {
    s' := On(s0, s, t);
    s' := On(s0, s', t);
    assert s'.pcs == s.pcs[t := s'.pcs[t]];
  }

  lemma SoloHandOver<T>(s0: State<T>, s: State<T>, t: Tid, v: T) returns (s': State<T>)
    requires Leads(s0, t, s) && t < |s.pcs| && t < |s.bins.locals| && s.pcs[t] == Ret(v, R276) && s.bins.lock == None
    ensures Leads(s0, t, s')
    ensures var g := s.bins.global + s.bins.locals[t];
      s' == At(s, t, if |g| > GLOBAL_THRESHOLD then Ret(v, Stuck) else Deq(Returning(Some(v)))).(
        bins := s.bins.(locals := s.bins.locals[t := []], global := g,
                        lock := if |g| > GLOBAL_THRESHOLD then Some(t) else None))
  {
    s' := On(s0, s, t);
    s' := On(s0, s', t);
    s' := On(s0, s', t);
    assert s'.pcs == s.pcs[t := s'.pcs[t]];
  }

  /**
  RetirePointer run alone leaves the lists as the method RetirePointer does. It returns, with the mutex free,
  exactly when the global list has not just been taken above its threshold.
  */
  lemma SoloRetire<T>(s0: State<T>, s: State<T>, t: Tid, v: T, p: Ptr) returns (s': State<T>)
    requires Leads(s0, t, s) && t < |s.pcs| && t < |s.bins.locals| && s.pcs[t] == Ret(v, R269(p)) && s.bins.lock == None
    ensures Leads(s0, t, s')
    ensures var b := HandedOver(s.bins, t, p);
      var over := |s.bins.locals[t]| + 1 >= LOCAL_THRESHOLD && |b.global| > GLOBAL_THRESHOLD;
      s' == At(s, t, if over then Ret(v, Stuck) else Deq(Returning(Some(v)))).(
        bins := b.(lock := if over then Some(t) else None))
  {
    s' := SoloAppend(s0, s, t, v, p);
    var l := s.bins.locals[t] + [p];
    if |l| >= LOCAL_THRESHOLD {
      s' := SoloHandOver(s0, s', t, v);
      assert s.bins.locals[t := l][t := []] == s.bins.locals[t := []];
      assert s'.pcs == s.pcs[t := s'.pcs[t]];
    }
  }

  /** The whole call of dequeue on a queue that is not empty. */
  lemma SoloDequeueReturns<T>(s: State<T>, a: Chain, t: Tid) returns (s': State<T>)
    requires Inv(s, a) && t < |s.pcs| && s.pcs[t] == Idle && s.list.lock == None && s.bins.lock == None
    requires Contents(s.core) != [] && |s.bins.global| + LOCAL_THRESHOLD <= GLOBAL_THRESHOLD
    ensures Leads(Step(s, t, Dequeue), t, s') && s'.pcs == s.pcs[t := Deq(Returning(Some(Contents(s.core)[0])))]
    ensures Contents(s'.core) == Contents(s.core)[1..]
    ensures t < |s.bins.locals| && s'.bins == HandedOver(s.bins, t, s.core.head)
    ensures Padded(s.slots, s'.slots) && s'.list == s.list
  {
    s' := SoloDequeue(s, a, t);
    assert SizeOk(s.bins.locals[t], s.pcs[t]);
    s' := SoloRetire(Step(s, t, Dequeue), s', t, Contents(s.core)[0], s.core.head);
    assert s'.pcs == s.pcs[t := s'.pcs[t]];
  }

  // ----- Scan and reclaim_all

  /** `s` with thread `t` reclaiming at `pc` and `g` as the global list. */
  ghost function Reclaiming<T>(s: State<T>, t: Tid, pc: ScanPc, g: seq<Ptr>): (s': State<T>)
    requires t < |s.pcs|
    ensures |s'.pcs| == |s.pcs|
  {
    At(s, t, Scan(pc)).(bins := s.bins.(global := g))
  }

  /** Where the loop head is reached again after entry `i` has been examined. */
  ghost function AfterEntry<T>(s: State<T>, t: Tid, g: seq<Ptr>, i: nat, cl: seq<Ptr>): State<T>
    requires t < |s.pcs| && i < |g|
  {
    if Protected(s.slots, g[i]) then Reclaiming(s, t, S179(i + 1, cl), g)
    else Reclaiming(s, t, S179(i, cl + [g[i]]), g[..i] + g[i + 1..])
  }

  lemma StepReclaiming<T>(s0: State<T>, s: State<T>, t: Tid, pc: ScanPc, g: seq<Ptr>, pc': ScanPc, g': seq<Ptr>)
    requires t < |s.pcs| && Leads(s0, t, Reclaiming(s, t, pc, g))
    requires var r := Reclaiming(s, t, pc, g); var e: Effect<T> := StepScan(r, pc).1;
      StepScan(r, pc).0 == Scan(pc') && (e.Nothing? || e.Claim?) && ApplyBins(r.bins, t, e).global == g'
    ensures Leads(s0, t, Reclaiming(s, t, pc', g'))
  {
    var s' := On(s0, Reclaiming(s, t, pc, g), t);
    assert s.pcs[t := Scan(pc)][t := Scan(pc')] == s.pcs[t := Scan(pc')];
    assert s' == Reclaiming(s, t, pc', g');
  }

  /** isProtected in the machine: from cursor `c` it ends by keeping or claiming entry `i`. */
  lemma {:induction false} SoloProtected<T>(s0: State<T>, s: State<T>, t: Tid, g: seq<Ptr>, i: nat, c: nat,
                                              cl: seq<Ptr>)
    requires t < |s.pcs| && i < |g| && c <= |s.slots| && !s.list.half
    requires Leads(s0, t, Reclaiming(s, t, S151(i, c, cl), g))
    requires forall j :: c <= j < |s.slots| ==> s.slots[j].ptr != Some(g[i])
    ensures Leads(s0, t, AfterEntry(s, t, g, i, cl))
    decreases c
  {
    if c == 0 {
      StepReclaiming(s0, s, t, S151(i, c, cl), g, S179(i, cl + [g[i]]), g[..i] + g[i + 1..]);
    } else if s.slots[c - 1].ptr == Some(g[i]) {
      StepReclaiming(s0, s, t, S151(i, c, cl), g, S179(i + 1, cl), g);
    } else {
      StepReclaiming(s0, s, t, S151(i, c, cl), g, S154(i, c, cl), g);
      StepReclaiming(s0, s, t, S154(i, c, cl), g, S151(i, c - 1, cl), g);
      SoloProtected(s0, s, t, g, i, c - 1, cl);
    }
  }

  /** One entry of the machine's reclaim, from the loop head back to the loop head. */
  lemma SoloEntry<T>(s0: State<T>, s: State<T>, t: Tid, g: seq<Ptr>, i: nat, cl: seq<Ptr>)
    requires t < |s.pcs| && i < |g| && !s.list.half && Leads(s0, t, Reclaiming(s, t, S179(i, cl), g))
    ensures Leads(s0, t, AfterEntry(s, t, g, i, cl))
  {
    StepReclaiming(s0, s, t, S179(i, cl), g, S151(i, |s.slots|, cl), g);
    SoloProtected(s0, s, t, g, i, |s.slots|, cl);
  }

  /** The reclaim loop's end, from entry `i` with `cl` claimed. */
  ghost function Swept<T>(s: State<T>, t: Tid, g: seq<Ptr>, i: nat, cl: seq<Ptr>): State<T>
    requires t < |s.pcs| && i <= |g|
  {
    var g' := g[..i] + Kept(s.slots, g[i..]);
    Reclaiming(s, t, S179(|g'|, cl + Dropped(s.slots, g[i..])), g')
  }

  lemma SweptKept<T>(s: State<T>, t: Tid, g: seq<Ptr>, i: nat, cl: seq<Ptr>)
    requires t < |s.pcs| && i < |g| && Protected(s.slots, g[i])
    ensures Swept(s, t, g, i + 1, cl) == Swept(s, t, g, i, cl)
  {
    assert g[i..] == [g[i]] + g[i + 1..];
    assert g[..i + 1] + Kept(s.slots, g[i + 1..]) == g[..i] + Kept(s.slots, g[i..]);
    assert Dropped(s.slots, g[i..]) == Dropped(s.slots, g[i + 1..]);
  }

  lemma SweptDropped<T>(s: State<T>, t: Tid, g: seq<Ptr>, i: nat, cl: seq<Ptr>)
    requires t < |s.pcs| && i < |g| && !Protected(s.slots, g[i])
    ensures Swept(s, t, g[..i] + g[i + 1..], i, cl + [g[i]]) == Swept(s, t, g, i, cl)
  {
    var g1 := g[..i] + g[i + 1..];
    assert g[i..] == [g[i]] + g[i + 1..];
    assert g1[i..] == g[i + 1..] && g1[..i] == g[..i];
    assert Kept(s.slots, g[i..]) == Kept(s.slots, g[i + 1..]);
    assert cl + [g[i]] + Dropped(s.slots, g[i + 1..]) == cl + Dropped(s.slots, g[i..]);
  }

  lemma SweptDone<T>(s: State<T>, t: Tid, g: seq<Ptr>, cl: seq<Ptr>)
    requires t < |s.pcs|
    ensures Swept(s, t, g, |g|, cl) == Reclaiming(s, t, S179(|g|, cl), g)
  {
    assert g[..|g|] + [] == g && cl + [] == cl;
  }

  /** The loop of reclaim_all, while every slot is linked. */
  lemma {:induction false} SoloSweep<T>(s0: State<T>, s: State<T>, t: Tid, g: seq<Ptr>, i: nat, cl: seq<Ptr>)
    requires t < |s.pcs| && i <= |g| && !s.list.half && Leads(s0, t, Reclaiming(s, t, S179(i, cl), g))
    ensures Leads(s0, t, Swept(s, t, g, i, cl))
    decreases |g| - i
  {
    if i == |g| {
      SweptDone(s, t, g, cl);
    } else {
      SoloEntry(s0, s, t, g, i, cl);
      if Protected(s.slots, g[i]) {
        SoloSweep(s0, s, t, g, i + 1, cl);
        SweptKept(s, t, g, i, cl);
      } else {
        SoloSweep(s0, s, t, g[..i] + g[i + 1..], i, cl + [g[i]]);
        SweptDropped(s, t, g, i, cl);
      }
    }
  }

  /** The deletions after the mutex is released. */
  lemma {:induction false} SoloDelete<T>(s0: State<T>, s: State<T>, t: Tid, cl: seq<Ptr>) returns (s': State<T>)
    requires Leads(s0, t, s) && t < |s.pcs| && s.pcs[t] == Scan(S189(cl))
    ensures Leads(s0, t, s') && s' == At(s, t, Idle).(bins := s.bins.(freed := s.bins.freed + cl))
    decreases |cl|
  {
    s' := On(s0, s, t);
    if cl != [] {
      s' := SoloDelete(s0, s', t, cl[1..]);
      assert s.bins.freed + [cl[0]] + cl[1..] == s.bins.freed + cl;
      assert s'.pcs == s.pcs[t := Idle];
    }
  }

  /** reclaim_all from its lock on, while every slot is linked. */
  lemma SoloReclaimFrom<T>(s0: State<T>, s: State<T>, t: Tid) returns (s': State<T>)
    requires Leads(s0, t, s) && t < |s.pcs| && s.pcs[t] == Scan(S177) && s.bins.lock == None && !s.list.half
    ensures Leads(s0, t, s')
    ensures s' == At(s, t, Idle).(bins := s.bins.(global := Kept(s.slots, s.bins.global),
                                                  freed := s.bins.freed + Dropped(s.slots, s.bins.global)))
  {
    var g := s.bins.global;
    s' := On(s0, s, t);
    assert s' == Reclaiming(s', t, S179(0, []), g);
    SoloSweep(s0, s', t, g, 0, []);
    var w := Swept(s', t, g, 0, []);
    assert g[0..] == g && g[..0] + Kept(s.slots, g) == Kept(s.slots, g);
    assert [] + Dropped(s.slots, g) == Dropped(s.slots, g);
    assert w == Reclaiming(s', t, S179(|Kept(s.slots, g)|, Dropped(s.slots, g)), Kept(s.slots, g));
    s' := On(s0, w, t);
    s' := SoloDelete(s0, s', t, Dropped(s.slots, g));
    assert s'.pcs == s.pcs[t := Idle];
  }

  /**
  A reclaim_all run alone while every slot is linked leaves the protected entries in order and deletes the
  others in order: what the method ReclaimAll does.
  */
  lemma SoloReclaim<T>(s: State<T>, t: Tid) returns (s': State<T>)
    requires t < |s.pcs| && s.pcs[t] == Idle && s.bins.lock == None && !s.list.half
    ensures Leads(Step(s, t, CallReclaim), t, s')
    ensures s' == s.(bins := s.bins.(global := Kept(s.slots, s.bins.global),
                                     freed := s.bins.freed + Dropped(s.slots, s.bins.global)))
  {
    var s0 := Step(s, t, CallReclaim);
    LeadsNowhere(s0, t);
    s' := SoloReclaimFrom(s0, s0, t);
    assert s'.pcs == s.pcs;
  }

  /** `s` with thread `t` at index `x` of its walk over the registered threads. */
  ghost function Gathering<T>(s: State<T>, t: Tid, x: nat): (s': State<T>)
    requires t < |s.pcs| && x <= |s.bins.registered|
    ensures |s'.pcs| == |s.pcs|
  {
    var (l, rest) := Gathered(s.bins.locals, s.bins.registered[..x]);
    At(s, t, Scan(S163(x, |s.bins.registered|))).(
      bins := s.bins.(lock := Some(t), locals := rest, global := s.bins.global + l))
  }

  lemma {:induction false} SoloGather<T>(s0: State<T>, s: State<T>, t: Tid, x: nat)
    requires t < |s.pcs| && x <= |s.bins.registered| && Leads(s0, t, Gathering(s, t, x))
    ensures Leads(s0, t, Gathering(s, t, |s.bins.registered|))
    decreases |s.bins.registered| - x
  {
    var who := s.bins.registered;
    if x < |who| {
      var s' := On(s0, Gathering(s, t, x), t);
      assert who[..x + 1][..x] == who[..x];
      assert s'.pcs == Gathering(s, t, x + 1).pcs;
      var (l, rest) := Gathered(s.bins.locals, who[..x]);
      if who[x] < |rest| {
        assert s.bins.global + (l + rest[who[x]]) == s.bins.global + l + rest[who[x]];
      }
      assert s' == Gathering(s, t, x + 1);
      SoloGather(s0, s, t, x + 1);
    }
  }

  /**
  A Scan run alone while every slot is linked splices the lists of all registered threads into the global
  list, in order, and then reclaims: what the method Scan does.
  */
  lemma SoloScan<T>(s: State<T>, t: Tid) returns (s': State<T>)
    requires t < |s.pcs| && s.pcs[t] == Idle && s.bins.lock == None && !s.list.half
    ensures Leads(Step(s, t, CallScan), t, s')
    ensures var (l, rest) := Gathered(s.bins.locals, s.bins.registered); var all := s.bins.global + l;
      s' == s.(bins := s.bins.(locals := rest, global := Kept(s.slots, all),
                               freed := s.bins.freed + Dropped(s.slots, all)))
  {
    var s0, who := Step(s, t, CallScan), s.bins.registered;
    LeadsNowhere(s0, t);
    s' := On(s0, s0, t);
    assert who[..0] == [];
    assert s.bins.global + [] == s.bins.global;
    assert s' == Gathering(s, t, 0);
    SoloGather(s0, s, t, 0);
    assert who[..|who|] == who;
    s' := On(s0, Gathering(s, t, |who|), t);
    s' := SoloReclaimFrom(s0, s', t);
    assert s'.pcs == s.pcs;
  }
}
