/**
A run in which dequeue reads a deleted node. Thread 1 has validated the dummy node and is about to read its
`next`. Thread 2 has stopped between lines 132 and 133 of an acquire. Thread 0 dequeues, which retires the
dummy, and scans: its walk over the slots ends at thread 2's unlinked slot, so it deletes the dummy.
*/
module CutRun {
  import opened Iteration
  import opened Wrappers
  import opened Machine
  import opened SlotInvariant
  import opened HazardSafety
  import opened QueueTheorems
  import opened ChainInvariant
  import opened Fifo
  import opened Domain
  import opened Solo
  import opened SafetyTheorems

  /** A run of `n` threads ends in `s`. */
  ghost predicate Reachable<T(!new)>(n: nat, v: T, s: State<T>) {
    exists r: Log<T> :: IsRun(r, n, v) && r.st[|r.mv|] == s
  }

  lemma ReachInit<T(!new)>(n: nat, v: T)
    ensures Reachable(n, v, Init(n, v))
  {
    var r := EveryScheduleRuns(n, v, []);
  }

  /** One more step of thread `t`. */
  lemma Go<T(!new)>(n: nat, v: T, s: State<T>, t: Tid, c: Choice<T>) returns (s': State<T>)
    requires Reachable(n, v, s) && t < |s.pcs|
    ensures s' == Step(s, t, c) && Reachable(n, v, s')
  {
    s' := Step(s, t, c);
    var q :| IsRun(q, n, v) && q.st[|q.mv|] == s;
    AppendIsRun(q, n, v, Move(t, c));
    assert IsRun(Extended(q, Move(t, c)), n, v);
  }

  lemma {:induction false} ReachOn<T(!new)>(n: nat, v: T, s: State<T>, t: Tid, k: nat)
    requires Reachable(n, v, s) && t < |s.pcs|
    ensures Reachable(n, v, Iterate(Alone(t), s, k))
    decreases k
  {
    if k > 0 {
      var s' := Go(n, v, s, t, Proceed);
      ReachOn(n, v, s', t, k - 1);
    }
  }

  /** What a thread reaches alone is reached by the run. */
  lemma ReachLeads<T(!new)>(n: nat, v: T, s: State<T>, t: Tid, s': State<T>)
    requires Reachable(n, v, s) && t < |s.pcs| && Leads(s, t, s')
    ensures Reachable(n, v, s')
  {
    var k: nat :| Iterate(Alone(t), s, k) == s';
    ReachOn(n, v, s, t, k);
  }

  lemma ReachInv<T(!new)>(n: nat, v: T, s: State<T>) returns (a: Chain)
    requires Reachable(n, v, s)
    ensures Inv(s, a) && |s.pcs| == n
  {
    var r :| IsRun(r, n, v) && r.st[|r.mv|] == s;
    InvAt(r, n, v, |r.mv|);
    a := r.ch[|r.mv|];
  }

  ghost predicate AllOwned(slots: seq<Slot>) {
    forall k :: 0 <= k < |slots| ==> slots[k].owner.Some?
  }

  /** The walk of an acquire over slots that are all owned, and the new slot, not linked yet. */
  lemma {:induction false} WalkAndGrow<T>(s0: State<T>, s: State<T>, t: Tid, c: nat) returns (s': State<T>)
    requires t < |s.pcs| && c <= |s.slots| && AllOwned(s.slots) && Leads(s0, t, Searching(s, t, None, c))
    ensures Leads(s0, t, s')
    ensures s' == At(s, t, Deq(Acquiring(None, A133(|s.slots|)))).(
      slots := s.slots + [Slot(None, Some(t))], list := SlotList(Some(t), true))
    decreases c
  {
    if c == 0 {
      s' := SoloGrow(s0, s, t, None);
    } else {
      s' := On(s0, Searching(s, t, None, c), t);
      assert s'.pcs == Searching(s, t, None, c - 1).pcs;
      s' := WalkAndGrow(s0, s, t, c - 1);
    }
  }

  /** Only the dummy node, thread 0 registered. */
  lemma Registered<T(!new)>(v: T) returns (s: State<T>)
    ensures Reachable(3, v, s) && s.pcs == [Idle, Idle, Idle] && s.slots == [] && s.list == SlotList(None, false)
    ensures s.core == Core([Node(v, None)], 0, 0) && s.bins == Bins([0], [[], [], []], [], None, [])
  {
    ReachInit(3, v);
    assert Init(3, v).pcs == [Idle, Idle, Idle] && Init(3, v).bins.locals == [[], [], []];
    s := Go(3, v, Init(3, v), 0, Register);
    assert s.pcs == [Idle, Idle, Idle];
  }

  /** Two nodes, thread 0 registered, nothing else begun. */
  lemma Opening<T(!new)>(v: T, x: T) returns (s: State<T>)
    ensures Reachable(3, v, s) && s.pcs == [Idle, Idle, Idle] && s.slots == [] && s.list == SlotList(None, false)
    ensures s.core.head == 0 && s.core.tail == 1 && |s.core.nodes| == 2 && NextOf(s.core, 0) == Some(1)
    ensures s.bins == Bins([0], [[], [], []], [], None, [])
  {
    var s1 := Registered(v);
    var a := ReachInv(3, v, s1);
    var s2 := Go(3, v, s1, 0, Enqueue(x));
    s := SoloEnqueue(s1, a, 0, x);
    ReachLeads(3, v, s2, 0, s);
    assert Contents(s.core) != [];
    NextIsOne(3, v, s);
  }

  lemma NextIsOne<T(!new)>(n: nat, v: T, s: State<T>)
    requires Reachable(n, v, s) && s.core.head == 0 && |s.core.nodes| == 2 && Contents(s.core) != []
    ensures NextOf(s.core, 0) == Some(1)
  {
    var a := ReachInv(n, v, s);
    HeadNext(s.core, a);
  }

  /** Thread `t` begins a dequeue and gets two new slots. */
  lemma TwoNewSlots<T(!new)>(n: nat, v: T, s: State<T>, t: Tid) returns (s': State<T>)
    requires Reachable(n, v, s) && t < |s.pcs| && s.pcs[t] == Idle
    requires s.list == SlotList(None, false) && AllOwned(s.slots)
    ensures Reachable(n, v, s')
    ensures s' == At(s, t, Deq(D85(|s.slots|, |s.slots| + 1))).(
      slots := s.slots + [Slot(None, Some(t)), Slot(None, Some(t))])
  {
    var s0 := Go(n, v, s, t, Dequeue);
    LeadsNowhere(s0, t);
    var a, b;
    s', a, b := SoloBothSlots(s0, s0, t);
    ReachLeads(n, v, s0, t, s');
    assert s'.slots == s.slots + [Slot(None, Some(t)), Slot(None, Some(t))];
    assert s'.pcs == s.pcs[t := Deq(D85(|s.slots|, |s.slots| + 1))];
  }

  /** Thread 1 is about to read the dummy, thread 0 holds two slots. */
  lemma Victim<T(!new)>(v: T, x: T) returns (s: State<T>)
    ensures Reachable(3, v, s) && s.list == SlotList(None, false)
    ensures s.pcs == [Deq(D85(2, 3)), Deq(D93(0, 1, 0, 1)), Idle]
    ensures |s.slots| == 4 && AllOwned(s.slots)
    ensures s.core.head == 0 && s.core.tail == 1 && |s.core.nodes| == 2 && NextOf(s.core, 0) == Some(1)
    ensures s.bins == Bins([0], [[], [], []], [], None, [])
  {
    s := Opening(v, x);
    var s1 := TwoNewSlots(3, v, s, 1);
    LeadsNowhere(s1, 1);
    s := SoloValidate(s1, s1, 1, 0, 1);
    ReachLeads(3, v, s1, 1, s);
    s := TwoNewSlots(3, v, s, 0);
  }

  /** Thread 2 is between lines 132 and 133. */
  lemma Unlinked<T(!new)>(v: T, x: T) returns (s: State<T>)
    ensures Reachable(3, v, s) && s.list == SlotList(Some(2), true)
    ensures s.pcs == [Deq(D85(2, 3)), Deq(D93(0, 1, 0, 1)), Deq(Acquiring(None, A133(4)))]
    ensures |s.slots| == 5 && s.slots[4].ptr == None
    ensures s.core.head == 0 && s.core.tail == 1 && |s.core.nodes| == 2 && NextOf(s.core, 0) == Some(1)
    ensures s.bins == Bins([0], [[], [], []], [], None, [])
  {
    s := Victim(v, x);
    var s1 := Go(3, v, s, 2, Dequeue);
    LeadsNowhere(s1, 2);
    var s2 := On(s1, s1, 2);
    assert s2 == Searching(s, 2, None, 4);
    s := WalkAndGrow(s1, s, 2, 4);
    ReachLeads(3, v, s1, 2, s);
  }

  lemma FirstRetired()
    ensures HandedOver(Bins([0], [[], [], []], [], None, []), 0, 0) == Bins([0], [[0], [], []], [], None, [])
  {
    assert [] + [0] == [0];
    assert [[], [], []][0 := [0]] == [[0], [], []];
  }

  /** Thread 0 dequeues and so retires the dummy. */
  lemma DummyRetired<T(!new)>(v: T, x: T) returns (s: State<T>)
    ensures Reachable(3, v, s) && s.list == SlotList(Some(2), true)
    ensures |s.pcs| == 3 && s.pcs[0] == Idle && s.pcs[1] == Deq(D93(0, 1, 0, 1))
    ensures |s.slots| == 5 && s.slots[4].ptr == None
    ensures s.bins == Bins([0], [[0], [], []], [], None, [])
  {
    var s0 := Unlinked(v, x);
    LeadsNowhere(s0, 0);
    s := SoloValidate(s0, s0, 0, 2, 3);
    s := SoloDecide(s0, s, 0, 2, 3);
    s := SoloTake(s0, s, 0, 2, 3, 1);
    var y := s.pcs[0].d.out.v;
    s := SoloRelease(s0, s, 0, 2, 3, Took(0, y));
    s := SoloRetire(s0, s, 0, y, 0);
    FirstRetired();
    s := On(s0, s, 0);
    ReachLeads(3, v, s0, 0, s);
  }

  /** A Scan splices the list of the only registered thread. */
  lemma SpliceFirst<T>(s0: State<T>, s: State<T>, t: Tid, p: Ptr) returns (s': State<T>)
    requires Leads(s0, t, s) && t < |s.pcs| && s.pcs[t] == Scan(S162) && s.bins.lock == None
    requires s.bins.registered == [t] && t < |s.bins.locals| && s.bins.locals[t] == [p] && s.bins.global == []
    ensures Leads(s0, t, s')
    ensures s' == At(s, t, Scan(S163(1, 1))).(bins := s'.bins) && s'.bins.global == [p]
  {
    s' := On(s0, s, t);
    s' := On(s0, s', t);
    assert [] + [p] == [p];
    assert s'.pcs == s.pcs[t := Scan(S163(1, 1))];
  }

  /** A Scan has spliced the only retired node. */
  lemma Gathered0<T(!new)>(v: T, x: T) returns (s: State<T>)
    ensures Reachable(3, v, s) && s.list == SlotList(Some(2), true)
    ensures |s.pcs| == 3 && s.pcs[0] == Scan(S163(1, 1)) && s.pcs[1] == Deq(D93(0, 1, 0, 1))
    ensures |s.slots| == 5 && s.slots[4].ptr == None && s.bins.global == [0]
  {
    var s1 := DummyRetired(v, x);
    var s0 := Go(3, v, s1, 0, CallScan);
    LeadsNowhere(s0, 0);
    s := SpliceFirst(s0, s0, 0, 0);
    ReachLeads(3, v, s0, 0, s);
  }

  /** It has taken the mutex again and is about to examine the node. */
  lemma Spliced<T(!new)>(v: T, x: T) returns (s: State<T>)
    ensures Reachable(3, v, s) && s.list == SlotList(Some(2), true)
    ensures |s.pcs| == 3 && s.pcs[0] == Scan(S179(0, [])) && s.pcs[1] == Deq(D93(0, 1, 0, 1))
    ensures |s.slots| == 5 && s.slots[4].ptr == None && s.bins.global == [0]
  {
    var s0 := Gathered0(v, x);
    LeadsNowhere(s0, 0);
    s := On(s0, s0, 0);
    s := On(s0, s, 0);
    ReachLeads(3, v, s0, 0, s);
  }

  /** Its walk is cut at thread 2's slot, and it claims the node. */
  lemma CutWalk<T(!new)>(v: T, x: T) returns (s: State<T>)
    ensures Reachable(3, v, s) && |s.pcs| == 3 && s.pcs[0] == Scan(S189([0])) && s.pcs[1] == Deq(D93(0, 1, 0, 1))
  {
    var s0 := Spliced(v, x);
    LeadsNowhere(s0, 0);
    s := On(s0, s0, 0);
    s := On(s0, s, 0);
    s := On(s0, s, 0);
    assert s == At(s0, 0, Scan(S151(0, 0, [])));
    assert [] + [0] == [0] && [0][..0] + [0][1..] == [];
    s := On(s0, s, 0);
    assert s.pcs[0] == Scan(S179(0, [0])) && s.bins.global == [];
    s := On(s0, s, 0);
    ReachLeads(3, v, s0, 0, s);
  }

  /** Sequentially consistent, without address reuse: dequeue reads a node that has been deleted. */
  lemma DeletedNodeIsRead<T(!new)>(v: T, x: T) returns (r: Log<T>, j: nat)
    ensures IsRun(r, 3, v) && j < |r.st| && |r.st[j].pcs| == 3
    ensures Reads(r.st[j].pcs[1], 0) && 0 in r.st[j].bins.freed
  {
    var s0 := CutWalk(v, x);
    LeadsNowhere(s0, 0);
    var s := SoloDelete(s0, s0, 0, [0]);
    ReachLeads(3, v, s0, 0, s);
    r :| IsRun(r, 3, v) && r.st[|r.mv|] == s;
    j := |r.mv|;
  }
}
