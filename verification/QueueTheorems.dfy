/** What holds over every run of the queue, for any number of threads and every interleaving. */
module QueueTheorems {
  import opened Wrappers
  import opened Machine
  import opened Sums
  import opened ChainInvariant
  import opened SlotInvariant
  import opened RetireInvariant
  import opened HazardSafety
  import opened Fifo
  import opened Pigeonhole

  /**
  A run: the states, the move that leads from each to the next, and as history the shared-memory access
  of each move and the nodes linked before each state.
  */
  datatype Log<T> = Log(st: seq<State<T>>, mv: seq<Move<T>>, ef: seq<Effect<T>>, ch: seq<Chain>)

  ghost predicate Sized<T>(r: Log<T>) {
    |r.st| == |r.ch| == |r.mv| + 1 && |r.ef| == |r.mv|
  }

  ghost predicate Moved<T>(r: Log<T>, i: nat)
    requires Sized(r) && i < |r.mv|
  {
    var s, m := r.st[i], r.mv[i];
    && m.t < |s.pcs|
    && r.st[i + 1] == Step(s, m.t, m.c)
    && r.ef[i] == Micro(s, m.t, m.c).1
    && r.ch[i + 1] == NextChain(r.ch[i], r.ef[i])
  }

  ghost predicate IsRun<T>(r: Log<T>, n: nat, v: T) {
    && Sized(r)
    && r.st[0] == Init(n, v)
    && r.ch[0] == Chain([0], map[0 := 0])
    && forall i {:trigger Moved(r, i)} :: 0 <= i < |r.mv| ==> Moved(r, i)
  }

  /** One more move at the end of a log. */
  ghost function Extended<T>(q: Log<T>, m: Move<T>): (r: Log<T>)
    requires Sized(q) && m.t < |q.st[|q.mv|].pcs|
    ensures Sized(r) && |r.mv| == |q.mv| + 1
    ensures r.st[|r.mv|] == Step(q.st[|q.mv|], m.t, m.c)
  {
    var s := q.st[|q.mv|];
    var e := Micro(s, m.t, m.c).1;
    Log(q.st + [Step(s, m.t, m.c)], q.mv + [m], q.ef + [e], q.ch + [NextChain(q.ch[|q.mv|], e)])
  }

  lemma StillMoved<T>(q: Log<T>, m: Move<T>, i: nat)
    requires Sized(q) && m.t < |q.st[|q.mv|].pcs| && i < |q.mv| && Moved(q, i)
    ensures Moved(Extended(q, m), i)
  {
    var r := Extended(q, m);
    assert r.st[i] == q.st[i] && r.st[i + 1] == q.st[i + 1] && r.mv[i] == q.mv[i];
    assert r.ef[i] == q.ef[i] && r.ch[i] == q.ch[i] && r.ch[i + 1] == q.ch[i + 1];
  }

  lemma AppendIsRun<T>(q: Log<T>, n: nat, v: T, m: Move<T>)
    requires IsRun(q, n, v) && m.t < |q.st[|q.mv|].pcs|
    ensures IsRun(Extended(q, m), n, v)
  {
    var r := Extended(q, m);
    forall i | 0 <= i < |r.mv| ensures Moved(r, i) {
      if i < |q.mv| {
        assert Moved(q, i);
        StillMoved(q, m, i);
      }
    }
  }

  /** Every schedule has a run. */
  lemma {:induction false} EveryScheduleRuns<T>(n: nat, v: T, ms: seq<Move<T>>) returns (r: Log<T>)
    requires forall i :: 0 <= i < |ms| ==> ms[i].t < n
    ensures IsRun(r, n, v) && r.mv == ms && |r.st[|ms|].pcs| == n
  {
    if ms == [] {
      r := Log([Init(n, v)], [], [], [Chain([0], map[0 := 0])]);
    } else {
      var k := |ms| - 1;
      var q := EveryScheduleRuns(n, v, ms[..k]);
      AppendIsRun(q, n, v, ms[k]);
      r := Extended(q, ms[k]);
      assert ms == ms[..k] + [ms[k]];
    }
  }

  ghost predicate Sound<T>(r: Log<T>, n: nat, i: nat)
    requires Sized(r) && i < |r.st|
  {
    Inv(r.st[i], r.ch[i]) && |r.st[i].pcs| == n
  }

  lemma SoundInit<T>(r: Log<T>, n: nat, v: T)
    requires IsRun(r, n, v)
    ensures Sound(r, n, 0)
  {
    InitInv(n, v);
  }

  lemma SoundStep<T>(r: Log<T>, n: nat, v: T, i: nat)
    requires IsRun(r, n, v) && i < |r.mv| && Sound(r, n, i)
    ensures Sound(r, n, i + 1)
  {
    assert Moved(r, i);
    StepKeepsInv(r.st[i], r.ch[i], r.mv[i].t, r.mv[i].c);
  }

  /** The invariant at every state of a run. */
  lemma InvAt<T>(r: Log<T>, n: nat, v: T, i: nat)
    requires IsRun(r, n, v) && i < |r.st|
    ensures Sound(r, n, i)
  {
    SoundInit(r, n, v);
    for k := 0 to i
      invariant Sound(r, n, k)
    {
      SoundStep(r, n, v, k);
    }
  }

  // ----- the list

  lemma GrowsAt<T>(r: Log<T>, n: nat, v: T, i: nat)
    requires IsRun(r, n, v) && i < |r.mv|
    ensures Grows(r.st[i].core, r.ch[i], r.st[i + 1].core, r.ch[i + 1])
  {
    InvAt(r, n, v, i);
    assert Moved(r, i);
    StepKeepsChain(r.st[i], r.ch[i], r.mv[i].t, r.mv[i].c);
  }

  lemma GrowsTransitive<T>(c: Core<T>, a: Chain, c1: Core<T>, a1: Chain, c2: Core<T>, a2: Chain)
    requires Grows(c, a, c1, a1) && Grows(c1, a1, c2, a2)
    ensures Grows(c, a, c2, a2)
  {
  }

  lemma GrowsReflexive<T>(c: Core<T>, a: Chain)
    requires ChainOk(c, a)
    ensures Grows(c, a, c, a)
  {
  }

  /**
  In every reachable state the nodes ever linked form one chain, head is at or before tail and tail is
  last or second-to-last; from then on links never change and head and tail only advance.
  */
  lemma {:induction false} OneGrowingChain<T>(r: Log<T>, n: nat, v: T, i: nat, j: nat)
    requires IsRun(r, n, v) && i <= j < |r.st|
    ensures ChainOk(r.st[i].core, r.ch[i])
    ensures Grows(r.st[i].core, r.ch[i], r.st[j].core, r.ch[j])
    decreases j
  {
    InvAt(r, n, v, i);
    if i == j {
      GrowsReflexive(r.st[i].core, r.ch[i]);
    } else {
      OneGrowingChain(r, n, v, i, j - 1);
      GrowsAt(r, n, v, j - 1);
      GrowsTransitive(r.st[i].core, r.ch[i], r.st[j - 1].core, r.ch[j - 1], r.st[j].core, r.ch[j]);
    }
  }

  // ----- FIFO

  /** The call or return that move `i` shows to a client. */
  ghost function EventAt<T>(r: Log<T>, i: nat): Event<T>
    requires Sized(r) && i < |r.mv| && r.mv[i].t < |r.st[i].pcs|
  {
    EventOf(r.st[i], r.mv[i].t, r.mv[i].c)
  }

  /** Step `i` of the run is a step of the atomic queue from `q` to `q'`. */
  ghost predicate RefinedBy<T>(r: Log<T>, i: nat, q: Atomic<T>, q': Atomic<T>)
    requires Sized(r) && i < |r.mv|
  {
    r.mv[i].t < |r.st[i].pcs| && AtomicStep(q, q', r.mv[i].t, EventAt(r, i))
  }

  ghost predicate Holds<T>(s: State<T>, q: Atomic<T>) {
    q.contents == Contents(s.core)
  }

  lemma RefinesAt<T>(r: Log<T>, n: nat, v: T, i: nat, q: Atomic<T>) returns (q': Atomic<T>)
    requires IsRun(r, n, v) && i < |r.mv| && Simulates(r.st[i], q)
    ensures RefinedBy(r, i, q, q') && Simulates(r.st[i + 1], q') && Holds(r.st[i + 1], q')
  {
    InvAt(r, n, v, i);
    assert Moved(r, i);
    q' := StepRefines(r.st[i], r.ch[i], q, r.mv[i].t, r.mv[i].c);
  }

  lemma InitSimulates<T>(n: nat, v: T)
    ensures Simulates(Init(n, v), AtomicInit(n)) && Holds(Init(n, v), AtomicInit(n))
  {
  }

  /** `qs` are states of the atomic queue that the first moves of the run go through. */
  ghost predicate Mirrors<T>(r: Log<T>, n: nat, qs: seq<Atomic<T>>)
    requires Sized(r)
  {
    && 0 < |qs| <= |r.st| && qs[0] == AtomicInit(n)
    && (forall i :: 0 <= i < |qs| - 1 ==> RefinedBy(r, i, qs[i], qs[i + 1]))
    && (forall i :: 0 <= i < |qs| ==> Holds(r.st[i], qs[i]))
  }

  lemma MirrorsOne<T>(r: Log<T>, n: nat, v: T)
    requires IsRun(r, n, v)
    ensures Mirrors(r, n, [AtomicInit(n)]) && Simulates(r.st[0], AtomicInit(n))
  {
    InitSimulates(n, v);
  }

  lemma MirrorsMore<T>(r: Log<T>, n: nat, qs: seq<Atomic<T>>, q: Atomic<T>)
    requires Sized(r) && |qs| < |r.st| && Mirrors(r, n, qs)
    requires RefinedBy(r, |qs| - 1, qs[|qs| - 1], q) && Holds(r.st[|qs|], q)
    ensures Mirrors(r, n, qs + [q])
  {
    var qs' := qs + [q];
    forall i | 0 <= i < |qs| ensures RefinedBy(r, i, qs'[i], qs'[i + 1]) {
      assert i < |qs| - 1 ==> RefinedBy(r, i, qs[i], qs[i + 1]);
    }
    forall i | 0 <= i <= |qs| ensures Holds(r.st[i], qs'[i]) {
      assert i < |qs| ==> Holds(r.st[i], qs[i]);
    }
  }

  /** Every run shows the calls and returns of an atomic FIFO queue that holds the same values throughout. */
  lemma Linearizable<T>(r: Log<T>, n: nat, v: T) returns (qs: seq<Atomic<T>>)
    requires IsRun(r, n, v)
    ensures |qs| == |r.st| && Mirrors(r, n, qs)
  {
    qs := [AtomicInit(n)];
    MirrorsOne(r, n, v);
    for k := 0 to |r.mv|
      invariant |qs| == k + 1 && Mirrors(r, n, qs) && Simulates(r.st[k], qs[k])
    {
      var q := RefinesAt(r, n, v, k, qs[k]);
      MirrorsMore(r, n, qs, q);
      qs := qs + [q];
    }
  }

  lemma ContentsAt<T>(r: Log<T>, n: nat, v: T, i: nat)
    requires IsRun(r, n, v) && i < |r.mv|
    ensures Transforms(r.st[i].core, r.ef[i], Contents(r.st[i].core), Contents(r.st[i + 1].core))
  {
    InvAt(r, n, v, i);
    assert Moved(r, i);
    StepOnContents(r.st[i], r.ch[i], r.mv[i].t, r.mv[i].c);
  }

  /** The value that an access of move `i` puts into the queue, and the one it takes out. */
  ghost function Inserts<T>(k: Core<T>, e: Effect<T>): seq<T> {
    if e.Link? && e.n < |k.nodes| then [k.nodes[e.n].data] else []
  }

  ghost function Removes<T>(k: Core<T>, e: Effect<T>): seq<T> {
    if e.HeadTo? && e.x < |k.nodes| then [k.nodes[e.x].data] else []
  }

  /** The values linked by the first `i` moves in linking order, and those removed in removal order. */
  ghost function Inserted<T>(r: Log<T>, i: nat): seq<T>
    requires Sized(r) && i < |r.st|
  {
    if i == 0 then [] else Inserted(r, i - 1) + Inserts(r.st[i - 1].core, r.ef[i - 1])
  }

  ghost function Removed<T>(r: Log<T>, i: nat): seq<T>
    requires Sized(r) && i < |r.st|
  {
    if i == 0 then [] else Removed(r, i - 1) + Removes(r.st[i - 1].core, r.ef[i - 1])
  }

  lemma QueueLaw<T>(k: Core<T>, e: Effect<T>, ins: seq<T>, rem: seq<T>, before: seq<T>, after: seq<T>)
    requires Transforms(k, e, before, after) && ins == rem + before
    ensures ins + Inserts(k, e) == rem + Removes(k, e) + after
  {
    if e.HeadTo? {
      assert before == [before[0]] + after;
    }
  }

  ghost predicate InOrder<T>(r: Log<T>, i: nat)
    requires Sized(r) && i < |r.st|
  {
    Inserted(r, i) == Removed(r, i) + Contents(r.st[i].core)
  }

  lemma InOrderStep<T>(r: Log<T>, n: nat, v: T, i: nat)
    requires IsRun(r, n, v) && i < |r.mv| && InOrder(r, i)
    ensures InOrder(r, i + 1)
  {
    ContentsAt(r, n, v, i);
    QueueLaw(r.st[i].core, r.ef[i], Inserted(r, i), Removed(r, i), Contents(r.st[i].core), Contents(r.st[i + 1].core));
  }

  /** First in, first out, and no value lost or invented: what was linked is what was removed and then what remains. */
  lemma FirstInFirstOut<T>(r: Log<T>, n: nat, v: T, i: nat)
    requires IsRun(r, n, v) && i < |r.st|
    ensures InOrder(r, i)
  {
    for k := 0 to i
      invariant InOrder(r, k)
    {
      InOrderStep(r, n, v, k);
    }
  }

  /** A dequeue that has read a null `next` and may return false. */
  predicate SawEmpty<T>(pc: Pc<T>) {
    pc.Deq? &&
      match pc.d
      case D94(_, _, _, _, nx) => nx.None?
      case D97(_, _, _, _, nx) => nx.None?
      case Releasing(_, _, out) => out.Empty?
      case Returning(res) => res.None?
      case _ => false
  }

  lemma SawEmptyOrigin<T>(s: State<T>, d: DeqPc<T>, spurious: bool)
    requires SawEmpty(StepDequeue(s, d, spurious).0)
    ensures SawEmpty<T>(Deq(d)) || (d.D93? && NextOf(s.core, d.ch).None? && StepDequeue(s, d, spurious).1.Nothing?)
  {
  }

  lemma SawEmptyInDequeue<T>(s: State<T>, t: Tid, c: Choice<T>)
    requires t < |s.pcs| && SawEmpty(Micro(s, t, c).0)
    ensures s.pcs[t].Deq?
  {
  }

  lemma SawEmptyStep<T>(s: State<T>, a: Chain, t: Tid, c: Choice<T>)
    requires ChainOk(s.core, a) && t < |s.pcs| && ThreadOk(s.core, a, s.pcs[t])
    requires SawEmpty(Micro(s, t, c).0) && !SawEmpty(s.pcs[t])
    ensures Contents(Step(s, t, c).core) == []
  {
    SawEmptyInDequeue(s, t, c);
    var d := s.pcs[t].d;
    SawEmptyOrigin(s, d, c.Spurious?);
    NullNextMeansEmpty(s, a, d.ch);
  }

  lemma SawEmptyAt<T>(r: Log<T>, n: nat, v: T, i: nat, t: Tid)
    requires IsRun(r, n, v) && i < |r.mv| && t < |r.st[i + 1].pcs| && SawEmpty(r.st[i + 1].pcs[t])
    ensures Contents(r.st[i + 1].core) == [] || (t < |r.st[i].pcs| && SawEmpty(r.st[i].pcs[t]))
  {
    InvAt(r, n, v, i);
    assert Moved(r, i);
    if r.mv[i].t == t && !SawEmpty(r.st[i].pcs[t]) {
      assert ThreadOk(r.st[i].core, r.ch[i], r.st[i].pcs[t]);
      SawEmptyStep(r.st[i], r.ch[i], t, r.mv[i].c);
    }
  }

  /**
  If a dequeue returns false then the queue was empty at some instant of that call: from that state to
  the return the thread is inside dequeue.
  */
  lemma {:induction false} FalseMeansEmpty<T>(r: Log<T>, n: nat, v: T, j: nat, t: Tid) returns (i: nat)
    requires IsRun(r, n, v) && j < |r.st| && t < |r.st[j].pcs| && SawEmpty(r.st[j].pcs[t])
    ensures i <= j && Contents(r.st[i].core) == []
    ensures forall k :: i <= k <= j ==> t < |r.st[k].pcs| && r.st[k].pcs[t].Deq?
    decreases j
  {
    if j == 0 || Contents(r.st[j].core) == [] {
      i := j;
    } else {
      SawEmptyAt(r, n, v, j - 1, t);
      i := FalseMeansEmpty(r, n, v, j - 1, t);
    }
  }

  // ----- reclamation

  lemma PrefixAndSuffixDistinct(a: Chain, h: nat)
    requires Indexed(a) && h <= |a.order|
    ensures forall x :: multiset(a.order[..h])[x] + multiset(a.order[h..])[x] <= 1
  {
    assert a.order == a.order[..h] + a.order[h..];
    assert Distinct(a.order);
    DistinctIffOnce(a.order);
    forall x ensures multiset(a.order[..h])[x] + multiset(a.order[h..])[x] <= 1 {
      assert multiset(a.order)[x] <= 1;
    }
  }

  /**
  No node is held, listed, claimed or deleted twice, each of these nodes lies strictly before head and
  tail, and none of them is met by the destructor's walk from head.
  */
  lemma DeletedAtMostOnce<T>(r: Log<T>, n: nat, v: T, i: nat)
    requires IsRun(r, n, v) && i < |r.st|
    ensures var s, a := r.st[i], r.ch[i];
      && ChainOk(s.core, a)
      && (forall x :: x in Account(s) ==>
        Account(s)[x] == 1 && x in a.rank && a.rank[x] < a.rank[s.core.head] <= a.rank[s.core.tail])
      && Distinct(s.bins.freed + Follow(s.core.nodes, s.core.head, |s.core.nodes|))
  {
    InvAt(r, n, v, i);
    var s, a := r.st[i], r.ch[i];
    var h := a.rank[s.core.head];
    PrefixAndSuffixDistinct(a, h);
    ContentsOfChain(s.core, a);
    var walk := Follow(s.core.nodes, s.core.head, |s.core.nodes|);
    DistinctIffOnce(s.bins.freed + walk);
    assert multiset(s.bins.freed) <= Account(s);
    assert forall x :: multiset(s.bins.freed + walk)[x] == multiset(s.bins.freed)[x] + multiset(walk)[x];
    forall x | x in Account(s) ensures Account(s)[x] == 1 && x in a.rank && a.rank[x] < h {
      assert x in multiset(a.order[..h]);
      assert x in a.order[..h];
    }
  }

  /** The nodes before head. */
  ghost function Behind<T>(k: Core<T>, a: Chain): multiset<Ptr> {
    if k.head in a.rank && a.rank[k.head] <= |a.order| then multiset(a.order[..a.rank[k.head]]) else multiset{}
  }

  /** The nodes handed to RetirePointer by the first `i` moves. */
  ghost function Retired<T>(r: Log<T>, i: nat): multiset<Ptr>
    requires Sized(r) && i < |r.st|
  {
    if i == 0 then multiset{} else Retired(r, i - 1) + Appended(r.ef[i - 1])
  }

  ghost function Appended<T>(e: Effect<T>): multiset<Ptr> {
    if e.Append? then multiset{e.x} else multiset{}
  }

  ghost function Unheaded<T>(k: Core<T>, e: Effect<T>): multiset<Ptr> {
    if e.HeadTo? then multiset{k.head} else multiset{}
  }

  /** What a reclaimer has claimed and not yet deleted, and what a dequeuer has removed and not yet retired. */
  function Claimed<T>(pc: Pc<T>): multiset<Ptr> {
    if pc.Scan? then Waiting(pc) else multiset{}
  }

  function Pending<T>(pc: Pc<T>): multiset<Ptr> {
    if pc.Scan? then multiset{} else Waiting(pc)
  }

  lemma {:induction false} BagSplit<T>(pcs: seq<Pc<T>>)
    ensures Bag(pcs, Waiting) == Bag(pcs, Pending) + Bag(pcs, Claimed)
  {
    if |pcs| > 0 {
      BagSplit(pcs[..|pcs| - 1]);
    }
  }

  /** Claims and deletions happen only in a reclaimer, and only an idle thread becomes one. */
  lemma ScanApart<T>(s: State<T>, t: Tid, c: Choice<T>)
    requires t < |s.pcs|
    ensures var (pc', e) := Micro(s, t, c);
      && (!s.pcs[t].Scan? ==> !e.Claim? && !e.Free? && (pc'.Scan? ==> e.Nothing? && Waits(s.pcs[t]) == []))
      && (s.pcs[t].Scan? ==> !e.HeadTo? && !e.Append? && (pc'.Scan? || Waits(pc') == []))
  {
    match s.pcs[t]
    case Deq(d) => DequeueLeavesBins(s, d, c.Spurious?);
    case _ =>
  }

  lemma PendingMoves<T>(s: State<T>, t: Tid, pc': Pc<T>, e: Effect<T>)
    requires t < |s.pcs| && Moves(s.core, s.bins, e, Waits(s.pcs[t]), Waits(pc'))
    requires !s.pcs[t].Scan? ==> !e.Claim? && !e.Free? && (pc'.Scan? ==> e.Nothing? && Waits(s.pcs[t]) == [])
    requires s.pcs[t].Scan? ==> !e.HeadTo? && !e.Append? && (pc'.Scan? || Waits(pc') == [])
    ensures Pending(pc') + Appended(e) == Pending(s.pcs[t]) + Unheaded(s.core, e)
  {
  }

  lemma PendingAt<T>(r: Log<T>, n: nat, v: T, i: nat)
    requires IsRun(r, n, v) && i < |r.mv|
    ensures var s, s' := r.st[i], r.st[i + 1];
      && Bag(s'.pcs, Pending) + Appended(r.ef[i]) == Bag(s.pcs, Pending) + Unheaded(s.core, r.ef[i])
      && Behind(s'.core, r.ch[i + 1]) == Behind(s.core, r.ch[i]) + Unheaded(s.core, r.ef[i])
  {
    InvAt(r, n, v, i);
    assert Moved(r, i);
    PendingStep(r.st[i], r.mv[i].t, r.mv[i].c);
    BehindStep(r.st[i], r.ch[i], r.mv[i].t, r.mv[i].c);
  }

  lemma BehindStep<T>(s: State<T>, a: Chain, t: Tid, c: Choice<T>)
    requires InvChain(s, a) && t < |s.pcs|
    ensures var s', e := Step(s, t, c), Micro(s, t, c).1;
      Behind(s'.core, NextChain(a, e)) == Behind(s.core, a) + Unheaded(s.core, e)
  {
    MicroOk(s, a, t, c);
    PrefixStep(s.core, a, Micro(s, t, c).1);
  }

  lemma PendingStep<T>(s: State<T>, t: Tid, c: Choice<T>)
    requires Shape(s) && t < |s.pcs|
    ensures var s', e := Step(s, t, c), Micro(s, t, c).1;
      Bag(s'.pcs, Pending) + Appended(e) == Bag(s.pcs, Pending) + Unheaded(s.core, e)
  {
    var pc', e := Micro(s, t, c).0, Micro(s, t, c).1;
    MicroHandles(s, t, c);
    ScanApart(s, t, c);
    PendingMoves(s, t, pc', e);
    BagUpdate(s.pcs, t, pc', Pending);
    Trade(Bag(s.pcs, Pending), Bag(s.pcs[t := pc'], Pending), Pending(s.pcs[t]), Pending(pc'),
          Appended(e), Unheaded(s.core, e));
  }

  lemma Trade(p: multiset<Ptr>, p': multiset<Ptr>, w: multiset<Ptr>, w': multiset<Ptr>,
              x: multiset<Ptr>, h: multiset<Ptr>)
    requires p' + w == p + w' && w' + x == w + h
    ensures p' + x == p + h
  {
    forall q ensures (p' + x)[q] == (p + h)[q] {
      assert (p' + w)[q] == (p + w')[q] && (w' + x)[q] == (w + h)[q];
    }
  }

  lemma Settle(r: multiset<Ptr>, p: multiset<Ptr>, p': multiset<Ptr>, x: multiset<Ptr>, h: multiset<Ptr>)
    requires p' + x == p + h
    ensures (r + p) + h == (r + x) + p'
  {
    assert (r + p) + h == r + (p + h);
    assert (r + x) + p' == r + (p' + x);
  }

  lemma NothingPending<T>(n: nat, v: T)
    ensures Behind(Init(n, v).core, Chain([0], map[0 := 0])) == Bag(Init(n, v).pcs, Pending) == multiset{}
  {
    BagEmpty(Init(n, v).pcs, Pending);
  }

  ghost predicate Settled<T>(r: Log<T>, i: nat)
    requires Sized(r) && i < |r.st|
  {
    Behind(r.st[i].core, r.ch[i]) == Retired(r, i) + Bag(r.st[i].pcs, Pending)
  }

  lemma SettledInit<T>(r: Log<T>, n: nat, v: T)
    requires IsRun(r, n, v)
    ensures Settled(r, 0)
  {
    NothingPending(n, v);
  }

  lemma SettledStep<T>(r: Log<T>, n: nat, v: T, i: nat)
    requires IsRun(r, n, v) && i < |r.mv| && Settled(r, i)
    ensures Settled(r, i + 1)
  {
    PendingAt(r, n, v, i);
    Settle(Retired(r, i), Bag(r.st[i].pcs, Pending), Bag(r.st[i + 1].pcs, Pending),
           Appended(r.ef[i]), Unheaded(r.st[i].core, r.ef[i]));
  }

  lemma RetiredOrPending<T>(r: Log<T>, n: nat, v: T, i: nat)
    requires IsRun(r, n, v) && i < |r.st|
    ensures Settled(r, i)
  {
    SettledInit(r, n, v);
    for k := 0 to i
      invariant Settled(r, k)
    {
      SettledStep(r, n, v, k);
    }
  }

  /**
  Everything ever retired is, exactly once, in a thread-local list, in the global list, claimed by a
  reclaimer or deleted; a local list reaches the threshold only inside RetirePointer.
  */
  lemma RetiredIsConserved<T>(r: Log<T>, n: nat, v: T, i: nat)
    requires IsRun(r, n, v) && i < |r.st|
    ensures var s := r.st[i];
      && Retired(r, i) ==
         Bag(s.bins.locals, AsBag) + multiset(s.bins.global) + Bag(s.pcs, Claimed) + multiset(s.bins.freed)
      && |s.bins.locals| == |s.pcs| == n
      && (forall t :: 0 <= t < n && !s.pcs[t].Ret? ==> |s.bins.locals[t]| < LOCAL_THRESHOLD)
  {
    RetiredOrPending(r, n, v, i);
    InvAt(r, n, v, i);
    var s := r.st[i];
    assert Account(s) == Behind(s.core, r.ch[i]);
    BagSplit(s.pcs);
    Halve(Retired(r, i), Bag(s.pcs, Pending), Bag(s.pcs, Claimed), Bag(s.bins.locals, AsBag),
          multiset(s.bins.global), multiset(s.bins.freed));
    forall t | 0 <= t < n && !s.pcs[t].Ret? ensures |s.bins.locals[t]| < LOCAL_THRESHOLD {
      assert SizeOk(s.bins.locals[t], s.pcs[t]);
    }
  }

  lemma Halve(r: multiset<Ptr>, p: multiset<Ptr>, k: multiset<Ptr>,
              l: multiset<Ptr>, g: multiset<Ptr>, f: multiset<Ptr>)
    requires r + p == (p + k) + (l + g + f)
    ensures r == l + g + k + f
  {
    forall q ensures r[q] == (l + g + k + f)[q] {
      assert (r + p)[q] == ((p + k) + (l + g + f))[q];
    }
  }

  /** Two hazard slots per thread suffice for ever. */
  lemma SlotsAreBounded<T>(r: Log<T>, n: nat, v: T, i: nat)
    requires IsRun(r, n, v) && i < |r.st|
    ensures |r.st[i].slots| <= 2 * n
  {
    InvAt(r, n, v, i);
  }

  /** No node is twice in the global list. */
  lemma GlobalIsDistinct<T>(r: Log<T>, n: nat, v: T, i: nat)
    requires IsRun(r, n, v) && i < |r.st|
    ensures Distinct(r.st[i].bins.global)
  {
    var s := r.st[i];
    DeletedAtMostOnce(r, n, v, i);
    forall x ensures multiset(s.bins.global)[x] <= 1 {
      assert multiset(s.bins.global)[x] <= Account(s)[x];
    }
    DistinctIffOnce(s.bins.global);
  }

  // ----- the destructor

  /** The links met by a walk from head. */
  lemma WalkFromHead<T>(core: Core<T>, a: Chain, walk: seq<Ptr>)
    requires ChainOk(core, a) && walk == a.order[a.rank[core.head]..]
    ensures |walk| > 0 && walk[0] == core.head && Distinct(walk)
    ensures forall k :: 0 <= k < |walk| ==>
      walk[k] < |core.nodes| && core.nodes[walk[k]].next == if k + 1 < |walk| then Some(walk[k + 1]) else None
  {
    var h := a.rank[core.head];
    forall k | 0 <= k < |walk|
      ensures walk[k] < |core.nodes| && core.nodes[walk[k]].next == if k + 1 < |walk| then Some(walk[k + 1]) else None
    {
      assert walk[k] == a.order[h + k] && LinkOk(core, a, a.order[h + k]);
    }
  }

  /** The queue's destructor deletes the nodes from head on, each once, and stops at the end of the chain. */
  method Destroy<T>(core: Core<T>, ghost a: Chain) returns (deleted: seq<Ptr>)
    requires ChainOk(core, a)
    ensures deleted == a.order[a.rank[core.head]..] && Distinct(deleted)
  {
    ghost var walk := a.order[a.rank[core.head]..];
    WalkFromHead(core, a, walk);
    deleted := [];
    var curr := Some(core.head);
    while curr.Some?
      invariant |deleted| <= |walk| && deleted == walk[..|deleted|]
      invariant curr == if |deleted| < |walk| then Some(walk[|deleted|]) else None
      decreases |walk| - |deleted|
    {
      ghost var k := |deleted|;
      var next := core.nodes[curr.value].next;
      assert next == if k + 1 < |walk| then Some(walk[k + 1]) else None;
      deleted := deleted + [curr.value];
      curr := next;
    }
  }
}
