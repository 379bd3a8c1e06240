/**
The task executor as a transition system: attempts of run_task, execution timers and retry timers of
any number of tasks interleave. Program counters carry source lines. Timers fire at arbitrary moments,
user functions return or throw, and a cancelled timer may already have expired.
*/
module Executor {
  import opened Wrappers

  datatype TaskState = PENDING | RUNNING | SUCCESS | FAILED | TIMEOUT | CANCELLED

  /** The code of a thrown system_error; an exception without a code has none. */
  datatype ErrorCode = NoCode | ConnectionRefused | HostUnreachable | OperationAborted | OtherCode

  predicate IsRetryable(ec: ErrorCode) {
    ec.ConnectionRefused? || ec.HostUnreachable? || ec.OperationAborted?
  }

  const MAX_CONCURRENT_RETRY: int := 10

  /** What run_task reads and writes of a task; `calls` and `waited` count invocations and seconds of backoff. */
  datatype Task = Task(
    state: TaskState, errorMsg: string, cancelled: bool, retryCount: nat, maxRetry: nat,
    timeoutMs: int, submitTs: int, cpuCore: real, memMb: nat, calls: nat, waited: nat)

  /** Why an attempt has ended without stopping its execution timer. */
  datatype Leak = QuotaFull | RetryBegun | CancelTooLate

  /** The timer such an attempt leaves behind. */
  datatype Leftover = Leftover(timer: nat, why: Leak)

  datatype AttemptPc =
    | A44
    | A45
    | A50
    | A54
    | A60
    | A72(timer: nat)
    | A75(timer: nat)
    | A81(timer: nat)
    | Calling(timer: nat)
    | A84(timer: nat)
    | A85(timer: nat)
    | A95(timer: nat, ec: ErrorCode, what: string)
    | A97(timer: nat)
    | A98(timer: nat)
    | A99(timer: nat)
    | A104(timer: nat)
    | A115(timer: nat, what: string)
    | A116(timer: nat)
    | Over(left: Option<Leftover>)

  /** A retry timer: waiting at line 107, then running its callback. */
  datatype RetryPc = Waiting | R110 | R111 | Fired

  datatype Proc = Attempt(task: nat, a: AttemptPc) | Retry(task: nat, r: RetryPc)

  datatype TimerPc = Armed | T66 | Done
  datatype ExecTimer = ExecTimer(task: nat, e: TimerPc)

  datatype Exec = Exec(cnt: int, tasks: seq<Task>, procs: seq<Proc>, timers: seq<ExecTimer>)

  /** `now` is the clock read at line 50. */
  datatype Choice = Proceed(now: int) | Unknown(what: string) | Returns | Throws(ec: ErrorCode, what: string) | Late

  datatype Effect =
    | Nothing
    | Update(st: TaskState, msg: string)
    | Invoke
    | Add
    | Sub
    | Bump
    | StartTimer
    | Cancel(timer: nat)
    | StartRetry(delay: nat)
    | Execute

  /** The executor's `available_resources_`. */
  predicate CheckResources(t: Task) {
    t.cpuCore <= 4.0 && t.memMb <= 8192
  }

  function Remaining(t: Task, now: int): int {
    t.timeoutMs - (now - t.submitTs)
  }

  function Pow2(k: nat): nat {
    if k == 0 then 1 else 2 * Pow2(k - 1)
  }

  /** `1 << std::min(retry_count, 4u)` seconds. */
  function Delay(retryCount: nat): nat {
    Pow2(if retryCount < 4 then retryCount else 4)
  }

  function StepAttempt(s: Exec, t: Task, a: AttemptPc, c: Choice): (AttemptPc, Effect) {
    match a
    case A44 => (if CheckResources(t) then A50 else A45, Nothing)
    case A45 => (Over(None), Update(FAILED, "Insufficient resources"))
    case A50 => (if c.Proceed? && Remaining(t, c.now) >= 0 then A60 else if c.Proceed? then A54 else A50, Nothing)
    case A54 => (Over(None), Update(TIMEOUT, "Execution timeout"))
    case A60 => (A72(|s.timers|), StartTimer)
    case A72(k) => (A75(k), Update(RUNNING, ""))
    case A75(k) => (if c.Unknown? then A95(k, NoCode, c.what) else A81(k), Nothing)
    case A81(k) => (Calling(k), Invoke)
    case Calling(k) =>
      (if c.Returns? then A84(k) else if c.Throws? then A95(k, c.ec, c.what) else Calling(k), Nothing)
    case A84(k) => (A85(k), Update(SUCCESS, ""))
    case A85(k) => StopTimer(s, k, c.Late?)
    case A95(k, ec, what) => (if IsRetryable(ec) && t.retryCount < t.maxRetry then A97(k) else A115(k, what), Nothing)
    case A97(k) => (if s.cnt >= MAX_CONCURRENT_RETRY then A98(k) else A104(k), Add)
    case A98(k) => (A99(k), Sub)
    case A99(k) => (Over(Some(Leftover(k, QuotaFull))), Update(FAILED, "Retry quota full"))
    case A104(k) => (Over(Some(Leftover(k, RetryBegun))), StartRetry(Delay(t.retryCount)))
    case A115(k, what) => (A116(k), Update(FAILED, "Execution failed: " + what))
    case A116(k) => StopTimer(s, k, c.Late?)
    case Over(left) => (Over(left), Nothing)
  }

  /** `exec_timer->cancel()`, which is too late for a timer that has expired. */
  function StopTimer(s: Exec, k: nat, late: bool): (AttemptPc, Effect) {
    if late || k >= |s.timers| || !s.timers[k].e.Armed? then (Over(Some(Leftover(k, CancelTooLate))), Nothing)
    else (Over(None), Cancel(k))
  }

  function StepRetry(r: RetryPc): (RetryPc, Effect) {
    match r
    case Waiting => (R110, Sub)
    case R110 => (R111, Bump)
    case R111 => (Fired, Execute)
    case Fired => (Fired, Nothing)
  }

  function Micro(s: Exec, x: nat, c: Choice): (Proc, Effect)
    requires x < |s.procs| && s.procs[x].task < |s.tasks|
  {
    match s.procs[x]
    case Attempt(i, a) => var (a', e) := StepAttempt(s, s.tasks[i], a, c); (Attempt(i, a'), e)
    case Retry(i, r) => var (r', e) := StepRetry(r); (Retry(i, r'), e)
  }

  /** What an effect does to the task it is about. */
  function ApplyTask(t: Task, e: Effect): Task {
    match e
    case Update(st, msg) => t.(state := st, errorMsg := msg)
    case Invoke => t.(calls := t.calls + 1)
    case Bump => t.(retryCount := t.retryCount + 1)
    case StartRetry(delay) => t.(waited := t.waited + delay)
    case _ => t
  }

  /** What an effect adds to the running attempts and retry timers. */
  function Spawned(i: nat, e: Effect): seq<Proc> {
    match e
    case StartRetry(_) => [Retry(i, Waiting)]
    case Execute => [Attempt(i, A44)]
    case _ => []
  }

  function ApplyTimers(timers: seq<ExecTimer>, i: nat, e: Effect): seq<ExecTimer> {
    match e
    case StartTimer => timers + [ExecTimer(i, Armed)]
    case Cancel(k) => if k < |timers| && timers[k].e.Armed? then timers[k := timers[k].(e := Done)] else timers
    case _ => timers
  }

  function ApplyCount(cnt: int, e: Effect): int {
    if e.Add? then cnt + 1 else if e.Sub? then cnt - 1 else cnt
  }

  function Step(s: Exec, x: nat, c: Choice): Exec
    requires x < |s.procs| && s.procs[x].task < |s.tasks|
  {
    var (p, e) := Micro(s, x, c);
    var i := s.procs[x].task;
    Exec(ApplyCount(s.cnt, e), s.tasks[i := ApplyTask(s.tasks[i], e)], s.procs[x := p] + Spawned(i, e),
         ApplyTimers(s.timers, i, e))
  }

  /** The execution timer's callback: raise `cancelled`, then report the timeout. */
  function Tick(s: Exec, k: nat): Exec
    requires k < |s.timers| && s.timers[k].task < |s.tasks|
  {
    var i := s.timers[k].task;
    match s.timers[k].e
    case Armed => s.(tasks := s.tasks[i := s.tasks[i].(cancelled := true)], timers := s.timers[k := ExecTimer(i, T66)])
    case T66 =>
      s.(tasks := s.tasks[i := s.tasks[i].(state := TIMEOUT, errorMsg := "Execution timeout")],
         timers := s.timers[k := ExecTimer(i, Done)])
    case Done => s
  }

  /** execute_task on a new task: every task is submitted once, with no retries yet. */
  function Submit(s: Exec, t: Task): Exec {
    s.(tasks := s.tasks + [t.(state := PENDING, errorMsg := "", cancelled := false, retryCount := 0,
                              calls := 0, waited := 0)],
       procs := s.procs + [Attempt(|s.tasks|, A44)])
  }

  datatype Move = Run(x: nat, c: Choice) | Fire(k: nat) | New(t: Task)

  function Advance(s: Exec, m: Move): Exec {
    match m
    case Run(x, c) => if x < |s.procs| && s.procs[x].task < |s.tasks| then Step(s, x, c) else s
    case Fire(k) => if k < |s.timers| && s.timers[k].task < |s.tasks| then Tick(s, k) else s
    case New(t) => Submit(s, t)
  }

  const START := Exec(0, [], [], [])

  ghost predicate Moved(st: seq<Exec>, mv: seq<Move>, i: nat) {
    i < |mv| && i + 1 < |st| && st[i + 1] == Advance(st[i], mv[i])
  }

  /** A run: its states and the moves between them. */
  ghost predicate IsRun(st: seq<Exec>, mv: seq<Move>) {
    && |st| == |mv| + 1
    && st[0] == START
    && forall i {:trigger Moved(st, mv, i)} :: 0 <= i < |mv| ==> Moved(st, mv, i)
  }
}
