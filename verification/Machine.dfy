/**
The lock-free queue and its hazard-pointer reclamation as one transition system.

Any number of threads interleave. Every atomic load, store or compare-exchange, every append to or
splice of a retired list, and every lock operation is one step. The names of the program counters
carry the source line the thread is about to execute (`E` enqueue, `D` dequeue, `A` acquire,
`R` RetirePointer, `S` Scan, reclaim_all and isProtected). A node is named by its
allocation number, so addresses are never reused.
*/
module Machine {
  import opened Wrappers

  type Tid = nat
  type Ptr = nat
  type SlotId = nat

  /** `scan_threshold_` and `kGlobalThreshold`. */
  const LOCAL_THRESHOLD: nat := 100
  const GLOBAL_THRESHOLD: nat := 5000

  datatype Node<T> = Node(data: T, next: Option<Ptr>)

  /** `nodes` holds every node ever allocated; a deleted node keeps its contents. */
  datatype Core<T> = Core(nodes: seq<Node<T>>, head: Ptr, tail: Ptr)

  /** A hazard slot. Slots are numbered by creation; the slot list runs from the newest to the oldest. */
  datatype Slot = Slot(ptr: Option<Ptr>, owner: Option<Tid>)

  /** `list_mutex_`, and whether `head_` points to a slot whose `next_` has not been stored yet. */
  datatype SlotList = SlotList(lock: Option<Tid>, half: bool)

  /** The retired lists, the mutex that guards the global one, and the nodes deleted so far. */
  datatype Bins = Bins(registered: seq<Tid>, locals: seq<seq<Ptr>>, global: seq<Ptr>,
                       lock: Option<Tid>, freed: seq<Ptr>)

  /** What dequeue returns once its hazard slots are released. */
  datatype Outcome<T> = Empty | Took(ch: Ptr, v: T)

  datatype EnqPc =
    | E52(n: Ptr)
    | E53(n: Ptr, ct: Ptr)
    | E56(n: Ptr, ct: Ptr, nx: Option<Ptr>)
    | E59(n: Ptr, ct: Ptr)
    | E63(n: Ptr, ct: Ptr)
    | E70(n: Ptr, ct: Ptr, nxt: Ptr)
    | E66

  /** acquire with the mutex of the slot list held: about to look at slot `c - 1`, or to link the new slot `k`. */
  datatype AcqPc = A121(c: nat) | A133(k: SlotId)

  /** `a` and `b` are the slots of `hp_head` and `hp_next`; Releasing covers lines 103-104 and 121-122. */
  datatype DeqPc<T> =
    | D81
    | D82(a: SlotId)
    | Acquiring(first: Option<SlotId>, w: AcqPc)
    | D85(a: SlotId, b: SlotId)
    | D86(a: SlotId, b: SlotId, ch: Ptr)
    | D88(a: SlotId, b: SlotId, ch: Ptr)
    | D92(a: SlotId, b: SlotId, ch: Ptr)
    | D93(a: SlotId, b: SlotId, ch: Ptr, ct: Ptr)
    | D94(a: SlotId, b: SlotId, ch: Ptr, ct: Ptr, nx: Option<Ptr>)
    | D97(a: SlotId, b: SlotId, ch: Ptr, ct: Ptr, nx: Option<Ptr>)
    | D110(a: SlotId, b: SlotId, ch: Ptr, ct: Ptr, nxt: Ptr)
    | D115(a: SlotId, b: SlotId, ch: Ptr, ct: Ptr, nxt: Ptr)
    | D118(a: SlotId, b: SlotId, ch: Ptr, nxt: Ptr)
    | Releasing(todo: seq<SlotId>, cleared: bool, out: Outcome<T>)
    | Returning(res: Option<T>)

  datatype RetPc = R269(ch: Ptr) | R272 | R276 | R279 | R285 | Stuck

  /**
  isProtected is about to compare slot `c - 1` (S151) or to read that slot's `next_` (S154); `claimed` is
  `to_reclaim`. The loop of line 163 runs over the threads that are registered when it begins.
  */
  datatype ScanPc =
    | S162
    | S163(i: nat, end: nat)
    | S177
    | S179(i: nat, claimed: seq<Ptr>)
    | S151(i: nat, c: nat, claimed: seq<Ptr>)
    | S154(i: nat, c: nat, claimed: seq<Ptr>)
    | S189(claimed: seq<Ptr>)

  /** `Ret` is RetirePointer called by the dequeue that is about to return `v`. */
  datatype Pc<T> = Idle | Enq(e: EnqPc) | Deq(d: DeqPc<T>) | Ret(v: T, r: RetPc) | Scan(s: ScanPc)

  datatype State<T> = State(core: Core<T>, slots: seq<Slot>, list: SlotList, bins: Bins, pcs: seq<Pc<T>>)

  /** What the environment decides: the call an idle thread makes, or a spurious compare-exchange failure. */
  datatype Choice<T> = Proceed | Spurious | Enqueue(v: T) | Dequeue | CallScan | CallReclaim | Register

  /** The one access to shared memory that a step makes. */
  datatype Effect<T> =
    | Nothing
    | Alloc(v: T)
    | Link(at: Ptr, n: Ptr)
    | TailTo(x: Ptr)
    | HeadTo(x: Ptr)
    | LockList
    | Own(k: SlotId)
    | Grow
    | Join
    | Publish(k: SlotId, p: Option<Ptr>)
    | Disown(k: SlotId)
    | Enlist
    | Append(x: Ptr)
    | Lock
    | Unlock
    | Splice(u: Tid)
    | Claim(i: nat)
    | Free(x: Ptr)

  function NextOf<T>(c: Core<T>, x: Ptr): Option<Ptr> {
    if x < |c.nodes| then c.nodes[x].next else None
  }

  /** The slot an undisturbed acquire picks: the first one without an owner from the newest down, else a new one. */
  function PickSlot(slots: seq<Slot>, c: nat): (k: SlotId)
    requires c <= |slots|
    ensures k <= |slots|
    ensures k < |slots| ==> k < c && slots[k].owner == None && forall j :: k < j < c ==> slots[j].owner != None
    ensures k == |slots| ==> forall j :: 0 <= j < c ==> slots[j].owner != None
  {
    if c == 0 then |slots|
    else if slots[c - 1].owner == None then c - 1
    else PickSlot(slots, c - 1)
  }

  function AcquireSlot(slots: seq<Slot>, t: Tid): seq<Slot> {
    var k := PickSlot(slots, |slots|);
    if k < |slots| then slots[k := slots[k].(owner := Some(t))] else slots + [Slot(None, Some(t))]
  }

  /** The step thread `t` takes from its current program counter: where it goes and what it touches. */
  function Micro<T>(s: State<T>, t: Tid, c: Choice<T>): (Pc<T>, Effect<T>)
    requires t < |s.pcs|
  {
    match s.pcs[t]
    case Idle => Begin(s, c)
    case Enq(e) => StepEnqueue(s.core, e, c.Spurious?)
    case Deq(d) => StepDequeue(s, d, c.Spurious?)
    case Ret(v, r) => StepRetire(s.bins, t, v, r)
    case Scan(p) => StepScan(s, p)
  }

  function Begin<T>(s: State<T>, c: Choice<T>): (Pc<T>, Effect<T>) {
    match c
    case Enqueue(v) => (Enq(E52(|s.core.nodes|)), Alloc(v))
    case Dequeue => (Deq(D81), Nothing)
    case CallScan => (Scan(S162), Nothing)
    case CallReclaim => (Scan(S177), Nothing)
    case Register => (Idle, Enlist)
    case _ => (Idle, Nothing)
  }

  function StepEnqueue<T>(k: Core<T>, e: EnqPc, spurious: bool): (Pc<T>, Effect<T>) {
    match e
    case E52(n) => (Enq(E53(n, k.tail)), Nothing)
    case E53(n, ct) => (Enq(E56(n, ct, NextOf(k, ct))), Nothing)
    case E56(n, ct, nx) =>
      (Enq(if ct != k.tail then E52(n) else if nx.None? then E59(n, ct) else E70(n, ct, nx.value)), Nothing)
    case E59(n, ct) =>
      if NextOf(k, ct).None? && !spurious then (Enq(E63(n, ct)), Link(ct, n)) else (Enq(E52(n)), Nothing)
    case E63(n, ct) => (Enq(E66), if k.tail == ct && !spurious then TailTo(n) else Nothing)
    case E70(n, ct, nxt) => (Enq(E52(n)), if k.tail == ct && !spurious then TailTo(nxt) else Nothing)
    case E66 => (Idle, Nothing)
  }

  function StepDequeue<T>(s: State<T>, d: DeqPc<T>, spurious: bool): (Pc<T>, Effect<T>) {
    match d
    case D81 => if s.list.lock == None then (Deq(Acquiring(None, A121(|s.slots|))), LockList) else (Deq(d), Nothing)
    case D82(a) =>
      if s.list.lock == None then (Deq(Acquiring(Some(a), A121(|s.slots|))), LockList) else (Deq(d), Nothing)
    case Acquiring(first, w) => StepAcquire(s.slots, first, w)
    case D85(a, b) => (Deq(D86(a, b, s.core.head)), Nothing)
    case D86(a, b, ch) => (Deq(D88(a, b, ch)), Publish(a, Some(ch)))
    case D88(a, b, ch) => (Deq(if ch != s.core.head then D85(a, b) else D92(a, b, ch)), Nothing)
    case D92(a, b, ch) => (Deq(D93(a, b, ch, s.core.tail)), Nothing)
    case D93(a, b, ch, ct) => (Deq(D94(a, b, ch, ct, NextOf(s.core, ch))), Nothing)
    case D94(a, b, ch, ct, nx) => (Deq(D97(a, b, ch, ct, nx)), Publish(b, nx))
    case D97(a, b, ch, ct, nx) =>
      (Deq(if ch != s.core.head then D85(a, b)
           else if nx.None? then Releasing([a, b], false, Empty)
           else if ch == ct then D110(a, b, ch, ct, nx.value)
           else D115(a, b, ch, ct, nx.value)), Nothing)
    case D110(a, b, ch, ct, nxt) =>
      (Deq(D85(a, b)), if s.core.tail == ct && !spurious then TailTo(nxt) else Nothing)
    case D115(a, b, ch, ct, nxt) =>
      if s.core.head == ch && !spurious then (Deq(D118(a, b, ch, nxt)), HeadTo(nxt)) else (Deq(D85(a, b)), Nothing)
    case D118(a, b, ch, nxt) =>
      (Deq(if nxt < |s.core.nodes| then Releasing([a, b], false, Took(ch, s.core.nodes[nxt].data)) else d), Nothing)
    case Releasing(todo, cleared, out) =>
      if todo == [] then (if out.Empty? then Deq(Returning(None)) else Ret(out.v, R269(out.ch)), Nothing)
      else if !cleared then (Deq(Releasing(todo, true, out)), Publish(todo[0], None))
      else (Deq(Releasing(todo[1..], false, out)), Disown(todo[0]))
    case Returning(res) => (Idle, Nothing)
  }

  /**
  The owners are read one by one, and a release may give a slot back behind the walk. Line 132 makes a new slot
  the first of the list and line 133 stores its `next_`. The mutex is released with the last store.
  */
  function StepAcquire<T>(slots: seq<Slot>, first: Option<SlotId>, w: AcqPc): (Pc<T>, Effect<T>) {
    match w
    case A121(c) =>
      if c > |slots| then (Deq(Acquiring(first, w)), Nothing)
      else if c == 0 then (Deq(Acquiring(first, A133(|slots|))), Grow)
      else if slots[c - 1].owner == None then (Deq(Acquired(first, c - 1)), Own(c - 1))
      else (Deq(Acquiring(first, A121(c - 1))), Nothing)
    case A133(k) => (Deq(Acquired(first, k)), Join)
  }

  /** Where dequeue goes on with slot `k` in hand. */
  function Acquired<T>(first: Option<SlotId>, k: SlotId): DeqPc<T> {
    if first.None? then D82(k) else D85(first.value, k)
  }

  /** RetirePointer. Above the global threshold it calls Scan while holding the mutex and stops there. */
  function StepRetire<T>(b: Bins, t: Tid, v: T, r: RetPc): (Pc<T>, Effect<T>) {
    match r
    case R269(ch) => (Ret(v, R272), Append(ch))
    case R272 =>
      (if t < |b.locals| && |b.locals[t]| >= LOCAL_THRESHOLD then Ret(v, R276) else Deq(Returning(Some(v))), Nothing)
    case R276 => if b.lock == None then (Ret(v, R279), Lock) else (Ret(v, r), Nothing)
    case R279 => (Ret(v, R285), Splice(t))
    case R285 =>
      if |b.global| > GLOBAL_THRESHOLD then (Ret(v, Stuck), Nothing) else (Deq(Returning(Some(v))), Unlock)
    case Stuck => (Ret(v, r), Nothing)
  }

  /**
  Scan (from S162) and reclaim_all (from S177). isProtected takes no lock: it walks the slots from the newest
  to the oldest, and stops at the newest one if that is not linked yet.
  */
  function StepScan<T>(s: State<T>, p: ScanPc): (Pc<T>, Effect<T>) {
    match p
    case S162 => if s.bins.lock == None then (Scan(S163(0, |s.bins.registered|)), Lock) else (Scan(p), Nothing)
    case S163(i, end) =>
      if i < end && i < |s.bins.registered| then (Scan(S163(i + 1, end)), Splice(s.bins.registered[i]))
      else (Scan(S177), Unlock)
    case S177 => if s.bins.lock == None then (Scan(S179(0, [])), Lock) else (Scan(p), Nothing)
    case S179(i, claimed) =>
      if i < |s.bins.global| then (Scan(S151(i, |s.slots|, claimed)), Nothing) else (Scan(S189(claimed)), Unlock)
    case S151(i, c, claimed) =>
      if i >= |s.bins.global| || c > |s.slots| then (Scan(p), Nothing)
      else if c == 0 then (Scan(S179(i, claimed + [s.bins.global[i]])), Claim(i))
      else if s.slots[c - 1].ptr == Some(s.bins.global[i]) then (Scan(S179(i + 1, claimed)), Nothing)
      else (Scan(S154(i, c, claimed)), Nothing)
    case S154(i, c, claimed) =>
      (Scan(S151(i, if c == 0 || (s.list.half && c == |s.slots|) then 0 else c - 1, claimed)), Nothing)
    case S189(claimed) =>
      if claimed == [] then (Idle, Nothing) else (Scan(S189(claimed[1..])), Free(claimed[0]))
  }

  function ApplyCore<T>(c: Core<T>, e: Effect<T>): Core<T> {
    match e
    case Alloc(v) => c.(nodes := c.nodes + [Node(v, None)])
    case Link(at, n) => if at < |c.nodes| then c.(nodes := c.nodes[at := c.nodes[at].(next := Some(n))]) else c
    case TailTo(x) => c.(tail := x)
    case HeadTo(x) => c.(head := x)
    case _ => c
  }

  function ApplySlots<T>(slots: seq<Slot>, t: Tid, e: Effect<T>): seq<Slot> {
    match e
    case Own(k) => if k < |slots| then slots[k := slots[k].(owner := Some(t))] else slots
    case Grow => slots + [Slot(None, Some(t))]
    case Publish(k, p) => if k < |slots| then slots[k := slots[k].(ptr := p)] else slots
    case Disown(k) => if k < |slots| then slots[k := slots[k].(owner := None)] else slots
    case _ => slots
  }

  function ApplyList<T>(l: SlotList, t: Tid, e: Effect<T>): SlotList {
    match e
    case LockList => l.(lock := Some(t))
    case Own(_) => l.(lock := None)
    case Grow => l.(half := true)
    case Join => SlotList(None, false)
    case _ => l
  }

  function ApplyBins<T>(b: Bins, t: Tid, e: Effect<T>): Bins {
    match e
    case Enlist => b.(registered := b.registered + [t])
    case Append(x) => if t < |b.locals| then b.(locals := b.locals[t := b.locals[t] + [x]]) else b
    case Lock => b.(lock := Some(t))
    case Unlock => b.(lock := None)
    case Splice(u) =>
      if u < |b.locals| then b.(global := b.global + b.locals[u], locals := b.locals[u := []]) else b
    case Claim(i) => if i < |b.global| then b.(global := b.global[..i] + b.global[i + 1..]) else b
    case Free(x) => b.(freed := b.freed + [x])
    case _ => b
  }

  function Step<T>(s: State<T>, t: Tid, c: Choice<T>): State<T>
    requires t < |s.pcs|
  {
    var (pc, e) := Micro(s, t, c);
    State(ApplyCore(s.core, e), ApplySlots(s.slots, t, e), ApplyList(s.list, t, e), ApplyBins(s.bins, t, e),
          s.pcs[t := pc])
  }

  /** The queue right after construction, seen by `n` threads; `v` is the dummy node's data. */
  function Init<T>(n: nat, v: T): State<T> {
    State(Core([Node(v, None)], 0, 0), [], SlotList(None, false), Bins([], seq(n, _ => []), [], None, []),
          seq(n, _ => Idle))
  }

  datatype Move<T> = Move(t: Tid, c: Choice<T>)
}
