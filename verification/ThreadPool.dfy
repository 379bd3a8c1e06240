/**
The thread pool as a transition system: workers, and clients that enqueue, resize, stop or destroy the
pool, interleave over a FIFO queue and three atomic counters. Program counters carry source lines. A
push may fail, a wait on the semaphore may succeed or time out at any moment.
*/
module ThreadPool {

  type Tid = nat
  type Id = nat

  /** The range of std::size_t. */
  const SIZE: nat := 0x1_0000_0000_0000_0000

  function Wrap(x: int): (r: nat)
    ensures r < SIZE
  {
    x % SIZE
  }

  datatype WorkerPc =
    | W43
    | W45
    | W47
    | W48
    | W49(p: Id)
    | W50(p: Id)
    | W51
    | W55
    | W56(seen: nat)
    | W58
    | W59(cur: nat)
    | W60(cur: nat, tg: nat)
    | W64
    | W69
    | Gone

  datatype ClientPc =
    | Free
    | P28
    | P31(p: Id)
    | P32(p: Id)
    | P38
    | P39
    | Threw
    | A74(n: nat)
    | A78(n: nat)
    | M84(n: nat)
    | M87(x: nat)
    | H97
    | X17
    | X21
    | X22(p: Id)
    | X23

  datatype Pc = Worker(w: WorkerPc) | Client(k: ClientPc)

  /**
  The pool's fields, and as history the tasks in the order their push succeeded, in the order they were
  popped, those whose call has begun, those whose call has returned, and those the destructor deleted.
  */
  datatype Pool = Pool(
    queue: seq<Id>, stop: bool, active: nat, target: nat, leftover: nat, nextId: Id,
    accepted: seq<Id>, popped: seq<Id>, started: seq<Id>, executed: seq<Id>, drained: seq<Id>, pcs: seq<Pc>)

  datatype Choice = Proceed | Fail | Enqueue | AddThreads(n: nat) | RemoveThreads(n: nat) | Shutdown | Destroy

  datatype Effect =
    | Nothing
    | Stop
    | IncActive
    | DecActive
    | CasActive(to: nat)
    | AddTarget(n: nat)
    | SetTarget(x: nat)
    | NewTask
    | Push(p: Id)
    | Pop
    | Start(p: Id)
    | Finish(p: Id)
    | Drain(p: Id)
    | IncLeft
    | DecLeft
    | Spawn

  function StepWorker(s: Pool, w: WorkerPc, fail: bool): (WorkerPc, Effect) {
    match w
    case W43 => (W45, IncActive)
    case W45 => (if s.stop then W69 else W47, Nothing)
    case W47 => (if fail then W55 else W48, Nothing)
    case W48 => if s.queue != [] then (W49(s.queue[0]), Pop) else (W55, Nothing)
    case W49(p) => (W50(p), Start(p))
    case W50(p) => (W51, Finish(p))
    case W51 => (W55, DecLeft)
    case W55 => (W56(s.active), Nothing)
    case W56(seen) => (if seen > s.target then W58 else W45, Nothing)
    case W58 => (W59(s.active), Nothing)
    case W59(cur) => (if cur > s.target then W60(cur, s.target) else W64, Nothing)
    case W60(cur, tg) => if s.active == cur && cur > 0 then (Gone, CasActive(cur - 1)) else (W64, Nothing)
    case W64 => (W45, Nothing)
    case W69 => (Gone, DecActive)
    case Gone => (Gone, Nothing)
  }

  function StepClient(s: Pool, k: ClientPc, c: Choice): (ClientPc, Effect) {
    match k
    case Free => (Call(c), Nothing)
    case P28 => if s.stop then (Threw, Nothing) else (P31(s.nextId), NewTask)
    case P31(p) => if c.Fail? then (P32(p), Nothing) else (P38, Push(p))
    case P32(p) => (if s.stop then Threw else P31(p), Nothing)
    case P38 => (P39, IncLeft)
    case P39 => (Free, Nothing)
    case Threw => (Free, Nothing)
    case A74(n) => (A78(n), AddTarget(n))
    case A78(n) => if n == 0 then (Free, Nothing) else (A78(n - 1), Spawn)
    case M84(n) => (M87(if s.target > n then s.target - n else 0), Nothing)
    case M87(x) => (Free, SetTarget(x))
    case H97 => (Free, Stop)
    case X17 => (X21, Stop)
    case X21 => if s.queue != [] then (X22(s.queue[0]), Pop) else (Free, Nothing)
    case X22(p) => (X23, Drain(p))
    case X23 => (X21, DecLeft)
  }

  function Call(c: Choice): ClientPc {
    match c
    case Enqueue => P28
    case AddThreads(n) => A74(n)
    case RemoveThreads(n) => M84(n)
    case Shutdown => H97
    case Destroy => X17
    case _ => Free
  }

  function Micro(s: Pool, t: Tid, c: Choice): (Pc, Effect)
    requires t < |s.pcs|
  {
    match s.pcs[t]
    case Worker(w) => var (w', e) := StepWorker(s, w, c.Fail?); (Worker(w'), e)
    case Client(k) => var (k', e) := StepClient(s, k, c); (Client(k'), e)
  }

  function Apply(s: Pool, e: Effect): Pool {
    match e
    case Nothing => s
    case Stop => s.(stop := true)
    case IncActive => s.(active := Wrap(s.active + 1))
    case DecActive => s.(active := Wrap(s.active - 1))
    case CasActive(to) => s.(active := to)
    case AddTarget(n) => s.(target := Wrap(s.target + n))
    case SetTarget(x) => s.(target := x)
    case NewTask => s.(nextId := s.nextId + 1)
    case Push(p) => s.(queue := s.queue + [p], accepted := s.accepted + [p])
    case Pop => if s.queue == [] then s else s.(queue := s.queue[1..], popped := s.popped + [s.queue[0]])
    case Start(p) => s.(started := s.started + [p])
    case Finish(p) => s.(executed := s.executed + [p])
    case Drain(p) => s.(drained := s.drained + [p])
    case IncLeft => s.(leftover := Wrap(s.leftover + 1))
    case DecLeft => s.(leftover := Wrap(s.leftover - 1))
    case Spawn => s.(pcs := s.pcs + [Worker(W43)])
  }

  function Step(s: Pool, t: Tid, c: Choice): Pool
    requires t < |s.pcs|
  {
    var (pc, e) := Micro(s, t, c);
    Apply(s.(pcs := s.pcs[t := pc]), e)
  }

  /** A pool constructed with `n` workers, and `m` client threads. */
  function Init(n: nat, m: nat): Pool {
    Pool([], false, 0, Wrap(n), 0, 0, [], [], [], [], [], seq(n, _ => Worker(W43)) + seq(m, _ => Client(Free)))
  }

  // ----- runs

  datatype Move = Move(t: Tid, c: Choice)

  /** The states of a run and the moves between them. */
  datatype Log = Log(st: seq<Pool>, mv: seq<Move>)

  ghost predicate Moved(r: Log, i: nat)
    requires |r.st| == |r.mv| + 1 && i < |r.mv|
  {
    r.mv[i].t < |r.st[i].pcs| && r.st[i + 1] == Step(r.st[i], r.mv[i].t, r.mv[i].c)
  }

  ghost predicate IsRun(r: Log, n: nat, m: nat) {
    && |r.st| == |r.mv| + 1
    && r.st[0] == Init(n, m)
    && forall i {:trigger Moved(r, i)} :: 0 <= i < |r.mv| ==> Moved(r, i)
  }
}
