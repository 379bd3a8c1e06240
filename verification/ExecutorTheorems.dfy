/** Retry quota, retry bound and terminal states, over every run of the executor. */
module ExecutorTheorems {
  import opened Wrappers
  import opened Executor
  import opened Sums

  // ----- the quota

  /** Admitted to retry and the retry timer has not fired. */
  function Admitted(p: Proc): int {
    if (p.Attempt? && p.a.A104?) || (p.Retry? && p.r.Waiting?) then 1 else 0
  }

  /** Between the increment of `retrying_cnt` and the compensating decrement. */
  function Refused(p: Proc): int {
    if p.Attempt? && p.a.A98? then 1 else 0
  }

  ghost predicate Quota(s: Exec) {
    && s.cnt == Total(s.procs, Admitted) + Total(s.procs, Refused)
    && Total(s.procs, Admitted) <= MAX_CONCURRENT_RETRY
  }

  // ----- the tasks

  /** The backoff of the first `k` retries. */
  function Backoff(k: nat): nat {
    if k == 0 then 0 else Backoff(k - 1) + Delay(k - 1)
  }

  predicate Terminal(st: TaskState) {
    st == SUCCESS || st == FAILED || st == TIMEOUT
  }

  /** State and message go together. */
  predicate Coherent(t: Task) {
    match t.state
    case SUCCESS => t.errorMsg == ""
    case FAILED =>
      t.errorMsg == "Insufficient resources" || t.errorMsg == "Retry quota full" || "Execution failed: " <= t.errorMsg
    case TIMEOUT => t.errorMsg == "Execution timeout"
    case CANCELLED => false
    case _ => t.errorMsg == ""
  }

  ghost predicate TaskOk(t: Task) {
    && t.retryCount <= t.maxRetry
    && t.calls <= t.retryCount + 1
    && (t.waited == Backoff(t.retryCount) || (t.retryCount < t.maxRetry && t.waited == Backoff(t.retryCount + 1)))
    && Coherent(t)
    && (t.calls > 0 ==> CheckResources(t))
  }

  /** An attempt that has not returned, or a retry timer whose callback has not finished. */
  predicate Live(p: Proc) {
    if p.Attempt? then !p.a.Over? else !p.r.Fired?
  }

  /** What the one live process of a task knows about it. */
  ghost predicate LiveOk(t: Task, p: Proc) {
    match p
    case Attempt(_, a) =>
      && t.waited == Backoff(t.retryCount)
      && (!a.A44? && !a.A45? ==> CheckResources(t))
      && (BeforeCall(a) ==> t.calls <= t.retryCount)
      && (a.A97? || a.A104? ==> t.retryCount < t.maxRetry)
      && (a.A85? || a.A116? ==> Terminal(t.state))
    case Retry(_, r) =>
      && (r.Waiting? || r.R110? ==> t.retryCount < t.maxRetry && t.waited == Backoff(t.retryCount + 1))
      && (r.R111? ==> t.calls <= t.retryCount && t.waited == Backoff(t.retryCount))
  }

  ghost predicate LiveFor(procs: seq<Proc>, i: nat) {
    exists x :: 0 <= x < |procs| && procs[x].task == i && Live(procs[x])
  }

  ghost predicate ProcsOk(s: Exec) {
    && (forall x :: 0 <= x < |s.procs| ==> s.procs[x].task < |s.tasks|)
    && (forall x :: 0 <= x < |s.procs| && Live(s.procs[x]) ==> LiveOk(s.tasks[s.procs[x].task], s.procs[x]))
    && (forall x, y :: 0 <= x < y < |s.procs| && Live(s.procs[x]) && Live(s.procs[y]) ==>
          s.procs[x].task != s.procs[y].task)
  }

  /** Ended, with the backoff of exactly the retries made. */
  ghost predicate Rested(t: Task) {
    Terminal(t.state) && t.waited == Backoff(t.retryCount)
  }

  ghost predicate TasksOk(s: Exec) {
    && (forall i :: 0 <= i < |s.tasks| ==> TaskOk(s.tasks[i]))
    && (forall i :: 0 <= i < |s.tasks| ==> Rested(s.tasks[i]) || LiveFor(s.procs, i))
  }

  ghost predicate Inv(s: Exec) {
    && Quota(s)
    && ProcsOk(s)
    && TasksOk(s)
    && TimersOk(s)
  }

  /** A callback that is about to report a timeout has raised the task's `cancelled` flag. */
  ghost predicate TimersOk(s: Exec) {
    forall k :: 0 <= k < |s.timers| ==>
      s.timers[k].task < |s.tasks| && (s.timers[k].e.T66? ==> s.tasks[s.timers[k].task].cancelled)
  }

  // ----- a step of an attempt or a retry timer

  /** The step's own books: quota weights, the task and the process after the step. */
  ghost predicate Fair(s: Exec, t: Task, p: Proc, p': Proc, e: Effect) {
    var t' := ApplyTask(t, e);
    && p'.task == p.task
    && TaskOk(t')
    && (Live(p') ==> Live(p) && LiveOk(t', p'))
    && (Spawned(p.task, e) != [] ==>
          Live(p) && !Live(p') && LiveOk(t', Spawned(p.task, e)[0]) && |Spawned(p.task, e)| == 1)
    && (Live(p) && !Live(p') && Spawned(p.task, e) == [] ==> Rested(t'))
    && (!Live(p) ==> e.Nothing?)
  }

  ghost predicate Weighs(s: Exec, p: Proc, p': Proc, e: Effect) {
    var a := Admitted(p') - Admitted(p) + (if e.StartRetry? then 1 else 0);
    var r := Refused(p') - Refused(p);
    && a + r == (if e.Add? then 1 else if e.Sub? then -1 else 0)
    && (a > 0 ==> a == 1 && s.cnt < MAX_CONCURRENT_RETRY)
  }

  lemma AttemptWeighs(s: Exec, t: Task, i: nat, a: AttemptPc, c: Choice)
    ensures var (a', e) := StepAttempt(s, t, a, c); Weighs(s, Attempt(i, a), Attempt(i, a'), e)
  {
  }

  predicate BeforeCall(a: AttemptPc) {
    a.A44? || a.A45? || a.A50? || a.A54? || a.A60? || a.A72? || a.A75? || a.A81?
  }

  lemma EarlyFair(s: Exec, t: Task, i: nat, a: AttemptPc, c: Choice)
    requires TaskOk(t) && LiveOk(t, Attempt(i, a)) && BeforeCall(a)
    ensures var (a', e) := StepAttempt(s, t, a, c); Fair(s, t, Attempt(i, a), Attempt(i, a'), e)
  {
  }

  predicate Retrying(a: AttemptPc) {
    a.A97? || a.A98? || a.A99? || a.A104?
  }

  lemma RetryingFair(s: Exec, t: Task, i: nat, a: AttemptPc, c: Choice)
    requires TaskOk(t) && LiveOk(t, Attempt(i, a)) && Retrying(a)
    ensures var (a', e) := StepAttempt(s, t, a, c); Fair(s, t, Attempt(i, a), Attempt(i, a'), e)
  {
    assert Backoff(t.retryCount + 1) == Backoff(t.retryCount) + Delay(t.retryCount);
  }

  lemma LateFair(s: Exec, t: Task, i: nat, a: AttemptPc, c: Choice)
    requires TaskOk(t) && LiveOk(t, Attempt(i, a)) && !BeforeCall(a) && !Retrying(a) && !a.Over?
    ensures var (a', e) := StepAttempt(s, t, a, c); Fair(s, t, Attempt(i, a), Attempt(i, a'), e)
  {
  }

  lemma AttemptFair(s: Exec, t: Task, i: nat, a: AttemptPc, c: Choice)
    requires TaskOk(t) && (Live(Attempt(i, a)) ==> LiveOk(t, Attempt(i, a)))
    ensures var (a', e) := StepAttempt(s, t, a, c); Fair(s, t, Attempt(i, a), Attempt(i, a'), e)
  {
    if BeforeCall(a) {
      EarlyFair(s, t, i, a, c);
    } else if Retrying(a) {
      RetryingFair(s, t, i, a, c);
    } else if !a.Over? {
      LateFair(s, t, i, a, c);
    }
  }

  lemma RetryFair(s: Exec, t: Task, i: nat, r: RetryPc)
    requires TaskOk(t) && (Live(Retry(i, r)) ==> LiveOk(t, Retry(i, r)))
    ensures var (r', e) := StepRetry(r);
      Fair(s, t, Retry(i, r), Retry(i, r'), e) && Weighs(s, Retry(i, r), Retry(i, r'), e)
  {
  }

  lemma MicroFair(s: Exec, x: nat, c: Choice)
    requires Inv(s) && x < |s.procs| && s.procs[x].task < |s.tasks|
    ensures var (p', e) := Micro(s, x, c);
      Fair(s, s.tasks[s.procs[x].task], s.procs[x], p', e) && Weighs(s, s.procs[x], p', e)
  {
    assert TaskOk(s.tasks[s.procs[x].task]);
    match s.procs[x]
    case Attempt(i, a) =>
      AttemptFair(s, s.tasks[i], i, a, c);
      AttemptWeighs(s, s.tasks[i], i, a, c);
    case Retry(i, r) => RetryFair(s, s.tasks[i], i, r);
  }

  lemma TotalSpawned(procs: seq<Proc>, i: nat, e: Effect, w: Proc -> int)
    ensures Total(procs + Spawned(i, e), w) ==
            Total(procs, w) +
            if e.StartRetry? then w(Retry(i, Waiting)) else if e.Execute? then w(Attempt(i, A44)) else 0
  {
    if e.StartRetry? {
      TotalAppend(procs, Retry(i, Waiting), w);
    } else if e.Execute? {
      TotalAppend(procs, Attempt(i, A44), w);
    } else {
      assert procs + [] == procs;
    }
  }

  lemma QuotaStep(s: Exec, x: nat, p': Proc, e: Effect)
    requires Quota(s) && x < |s.procs| && Weighs(s, s.procs[x], p', e)
    ensures var procs' := s.procs[x := p'] + Spawned(s.procs[x].task, e);
      && ApplyCount(s.cnt, e) == Total(procs', Admitted) + Total(procs', Refused)
      && Total(procs', Admitted) <= MAX_CONCURRENT_RETRY
  {
    var i := s.procs[x].task;
    TotalUpdate(s.procs, x, p', Admitted);
    TotalUpdate(s.procs, x, p', Refused);
    TotalSpawned(s.procs[x := p'], i, e, Admitted);
    TotalSpawned(s.procs[x := p'], i, e, Refused);
    TotalNonNegative(s.procs, Refused);
  }

  lemma ProcsStep(s: Exec, x: nat, p': Proc, e: Effect)
    requires ProcsOk(s) && x < |s.procs| && s.procs[x].task < |s.tasks|
    requires Fair(s, s.tasks[s.procs[x].task], s.procs[x], p', e)
    ensures var i := s.procs[x].task;
      ProcsOk(s.(tasks := s.tasks[i := ApplyTask(s.tasks[i], e)], procs := s.procs[x := p'] + Spawned(i, e)))
  {
    var i := s.procs[x].task;
    var tasks', procs' := s.tasks[i := ApplyTask(s.tasks[i], e)], s.procs[x := p'] + Spawned(i, e);
    forall y | 0 <= y < |procs'| && Live(procs'[y]) ensures LiveOk(tasks'[procs'[y].task], procs'[y]) {
      if y < |s.procs| && y != x {
        OthersElsewhere(s, x, y);
      }
    }
    forall y, z | 0 <= y < z < |procs'| && Live(procs'[y]) && Live(procs'[z]) ensures procs'[y].task != procs'[z].task {
      if z < |s.procs| {
        assert Live(s.procs[y]) && Live(s.procs[z]);
      } else {
        assert y < |s.procs| && y != x;
        OthersElsewhere(s, x, y);
      }
    }
  }

  /** A live process of another thread of control is about another task, or the step has no effect. */
  lemma OthersElsewhere(s: Exec, x: nat, y: nat)
    requires ProcsOk(s) && x < |s.procs| && y < |s.procs| && y != x && Live(s.procs[y])
    ensures Live(s.procs[x]) ==> s.procs[y].task != s.procs[x].task
  {
    if Live(s.procs[x]) {
      assert if x < y then s.procs[x].task != s.procs[y].task else s.procs[y].task != s.procs[x].task;
    }
  }

  lemma TasksStep(s: Exec, x: nat, p': Proc, e: Effect)
    requires TasksOk(s) && x < |s.procs| && s.procs[x].task < |s.tasks|
    requires Fair(s, s.tasks[s.procs[x].task], s.procs[x], p', e)
    ensures var i := s.procs[x].task;
      TasksOk(s.(tasks := s.tasks[i := ApplyTask(s.tasks[i], e)], procs := s.procs[x := p'] + Spawned(i, e)))
  {
    var i := s.procs[x].task;
    var tasks', procs' := s.tasks[i := ApplyTask(s.tasks[i], e)], s.procs[x := p'] + Spawned(i, e);
    forall j | 0 <= j < |s.tasks| ensures Rested(tasks'[j]) || LiveFor(procs', j) {
      if j != i || !Live(s.procs[x]) {
        if !Rested(s.tasks[j]) {
          var y :| 0 <= y < |s.procs| && s.procs[y].task == j && Live(s.procs[y]);
          assert procs'[y] == s.procs[y];
        }
      } else if Live(p') {
        assert procs'[x] == p';
      } else if Spawned(i, e) != [] {
        assert procs'[|s.procs|] == Spawned(i, e)[0] && Live(procs'[|s.procs|]);
      }
    }
  }

  lemma TimersStep(s: Exec, i: nat, e: Effect)
    requires TimersOk(s) && i < |s.tasks|
    ensures TimersOk(s.(tasks := s.tasks[i := ApplyTask(s.tasks[i], e)], timers := ApplyTimers(s.timers, i, e)))
  {
  }

  lemma StepKeepsInv(s: Exec, x: nat, c: Choice)
    requires Inv(s) && x < |s.procs| && s.procs[x].task < |s.tasks|
    ensures Inv(Step(s, x, c))
  {
    var p', e := Micro(s, x, c).0, Micro(s, x, c).1;
    MicroFair(s, x, c);
    QuotaStep(s, x, p', e);
    ProcsStep(s, x, p', e);
    TasksStep(s, x, p', e);
    TimersStep(s, s.procs[x].task, e);
  }

  // ----- timers and submission

  /** A timer callback changes the state to a terminal one, or raises the flag; nobody relies on more. */
  lemma TickTask(s: Exec, k: nat, i: nat)
    requires k < |s.timers| && s.timers[k].task < |s.tasks| && i < |s.tasks| && TaskOk(s.tasks[i])
    ensures TaskOk(Tick(s, k).tasks[i]) && (Rested(s.tasks[i]) ==> Rested(Tick(s, k).tasks[i]))
    ensures forall p :: LiveOk(s.tasks[i], p) ==> LiveOk(Tick(s, k).tasks[i], p)
  {
  }

  lemma TickKeepsInv(s: Exec, k: nat)
    requires Inv(s) && k < |s.timers| && s.timers[k].task < |s.tasks|
    ensures Inv(Tick(s, k))
  {
    forall i | 0 <= i < |s.tasks|
      ensures TaskOk(Tick(s, k).tasks[i]) && (Rested(s.tasks[i]) ==> Rested(Tick(s, k).tasks[i]))
      ensures forall p :: LiveOk(s.tasks[i], p) ==> LiveOk(Tick(s, k).tasks[i], p)
    {
      TickTask(s, k, i);
    }
  }

  lemma SubmitTasks(s: Exec, t: Task)
    requires TasksOk(s)
    ensures TasksOk(Submit(s, t))
  {
    var s' := Submit(s, t);
    assert s'.procs[|s.procs|] == Attempt(|s.tasks|, A44);
    forall i | 0 <= i < |s'.tasks| ensures Rested(s'.tasks[i]) || LiveFor(s'.procs, i) {
      if i < |s.tasks| && !Rested(s.tasks[i]) {
        var y :| 0 <= y < |s.procs| && s.procs[y].task == i && Live(s.procs[y]);
        assert s'.procs[y] == s.procs[y];
      }
    }
  }

  lemma SubmitProcs(s: Exec, t: Task)
    requires ProcsOk(s)
    ensures ProcsOk(Submit(s, t))
  {
    var s' := Submit(s, t);
    forall x | 0 <= x < |s.procs|
      ensures s'.procs[x] == s.procs[x] && s'.tasks[s.procs[x].task] == s.tasks[s.procs[x].task] {}
  }

  lemma SubmitKeepsInv(s: Exec, t: Task)
    requires Inv(s)
    ensures Inv(Submit(s, t))
  {
    TotalAppend(s.procs, Attempt(|s.tasks|, A44), Admitted);
    TotalAppend(s.procs, Attempt(|s.tasks|, A44), Refused);
    SubmitTasks(s, t);
    SubmitProcs(s, t);
  }

  lemma MoveKeepsInv(s: Exec, m: Move)
    requires Inv(s)
    ensures Inv(Advance(s, m))
  {
    match m
    case Run(x, c) =>
      if x < |s.procs| {
        StepKeepsInv(s, x, c);
      }
    case Fire(k) =>
      if k < |s.timers| {
        TickKeepsInv(s, k);
      }
    case New(t) => SubmitKeepsInv(s, t);
  }

  lemma InvAt(st: seq<Exec>, mv: seq<Move>, i: nat)
    requires IsRun(st, mv) && i < |st|
    ensures Inv(st[i])
  {
    for k := 0 to i
      invariant Inv(st[k])
    {
      assert Moved(st, mv, k);
      MoveKeepsInv(st[k], mv[k]);
    }
  }

  // ----- results

  /**
  However many tasks fail at once, at most ten retry timers are outstanding, and `retrying_cnt` is theirs
  plus the refused callers'.
  */
  lemma RetriesAreLimited(st: seq<Exec>, mv: seq<Move>, i: nat)
    requires IsRun(st, mv) && i < |st|
    ensures Total(st[i].procs, Admitted) <= MAX_CONCURRENT_RETRY
    ensures st[i].cnt == Total(st[i].procs, Admitted) + Total(st[i].procs, Refused)
  {
    InvAt(st, mv, i);
  }

  /**
  A task is retried at most `max_retry` times and its function called at most once more than that; a task
  that asks for more than the executor has is never called; state and message always agree.
  */
  lemma RetriesAreBounded(st: seq<Exec>, mv: seq<Move>, i: nat, j: nat)
    requires IsRun(st, mv) && i < |st| && j < |st[i].tasks|
    ensures var t := st[i].tasks[j];
      && t.retryCount <= t.maxRetry
      && t.calls <= t.retryCount + 1
      && Coherent(t)
      && (t.cpuCore > 4.0 || t.memMb > 8192 ==> t.calls == 0)
  {
    InvAt(st, mv, i);
    assert TaskOk(st[i].tasks[j]);
  }

  /** When the execution timer's callback reports a timeout, the task's function has been told to stop. */
  lemma TimeoutRaisesFlag(st: seq<Exec>, mv: seq<Move>, i: nat, k: nat)
    requires IsRun(st, mv) && i < |st| && k < |st[i].timers| && st[i].timers[k].e.T66?
    ensures st[i].timers[k].task < |st[i].tasks| && st[i].tasks[st[i].timers[k].task].cancelled
  {
    InvAt(st, mv, i);
  }

  /** The backoff served or begun is that of the retries made, or of one more when a retry is under way. */
  lemma BackoffServed(st: seq<Exec>, mv: seq<Move>, i: nat, x: nat)
    requires IsRun(st, mv) && i < |st| && x < |st[i].procs| && Live(st[i].procs[x])
    ensures var p := st[i].procs[x];
      && p.task < |st[i].tasks|
      && var t := st[i].tasks[p.task];
        t.waited == Backoff(if p.Retry? && !p.r.R111? then t.retryCount + 1 else t.retryCount)
  {
    InvAt(st, mv, i);
    assert LiveOk(st[i].tasks[st[i].procs[x].task], st[i].procs[x]);
  }

  /** Exponential up to the fifth retry, sixteen seconds each from then on. */
  lemma {:induction false} BackoffClosedForm(k: nat)
    ensures Backoff(k) == if k <= 5 then Pow2(k) - 1 else 31 + 16 * (k - 5)
  {
    assert Pow2(4) == 16 && Pow2(5) == 32 by {
      assert Pow2(1) == 2 && Pow2(2) == 4 && Pow2(3) == 8;
    }
    if k > 0 {
      BackoffClosedForm(k - 1);
    }
  }

  /**
  When none of a task's attempts is queued or running and no retry is pending, the task has ended in
  SUCCESS, FAILED or TIMEOUT and has waited for exactly the retries it made.
  */
  lemma RestIsTerminal(st: seq<Exec>, mv: seq<Move>, i: nat, j: nat)
    requires IsRun(st, mv) && i < |st| && j < |st[i].tasks| && !LiveFor(st[i].procs, j)
    ensures Terminal(st[i].tasks[j].state) && st[i].tasks[j].waited == Backoff(st[i].tasks[j].retryCount)
  {
    InvAt(st, mv, i);
  }

  /** From then on, whatever runs or fires, no attempt of it starts again; its end can only become TIMEOUT. */
  lemma RestIsForever(st: seq<Exec>, mv: seq<Move>, i: nat, k: nat, j: nat)
    requires IsRun(st, mv) && i <= k < |st| && j < |st[i].tasks| && !LiveFor(st[i].procs, j)
    ensures j < |st[k].tasks| && !LiveFor(st[k].procs, j) && Terminal(st[k].tasks[j].state)
    ensures st[k].tasks[j].retryCount == st[i].tasks[j].retryCount && st[k].tasks[j].calls == st[i].tasks[j].calls
    ensures st[k].tasks[j].state == TIMEOUT || st[k].tasks[j].state == st[i].tasks[j].state
  {
    for q := i to k
      invariant j < |st[q].tasks| && !LiveFor(st[q].procs, j)
      invariant st[q].tasks[j].retryCount == st[i].tasks[j].retryCount && st[q].tasks[j].calls == st[i].tasks[j].calls
      invariant st[q].tasks[j].state == TIMEOUT || st[q].tasks[j].state == st[i].tasks[j].state
    {
      assert Moved(st, mv, q);
      InvAt(st, mv, q);
      match mv[q]
      case Run(x, c) =>
        if x < |st[q].procs| {
          DeadStaysDead(st[q], x, c, j);
        }
      case Fire(_) =>
      case New(t) => NewIsAnother(st[q], t, j);
    }
    InvAt(st, mv, k);
  }

  lemma NewIsAnother(s: Exec, t: Task, j: nat)
    requires j < |s.tasks| && !LiveFor(s.procs, j)
    ensures !LiveFor(Submit(s, t).procs, j)
  {
    var procs' := Submit(s, t).procs;
    forall y | 0 <= y < |procs'| && procs'[y].task == j ensures !Live(procs'[y]) {
      assert y < |s.procs| && procs'[y] == s.procs[y];
    }
  }

  lemma DeadStaysDead(s: Exec, x: nat, c: Choice, j: nat)
    requires Inv(s) && x < |s.procs| && s.procs[x].task < |s.tasks| && j < |s.tasks| && !LiveFor(s.procs, j)
    ensures var s' := Step(s, x, c);
      !LiveFor(s'.procs, j) && s'.tasks[j] == s.tasks[j]
  {
    var p', e := Micro(s, x, c).0, Micro(s, x, c).1;
    MicroFair(s, x, c);
    var i, procs' := s.procs[x].task, s.procs[x := p'] + Spawned(s.procs[x].task, e);
    if i == j {
      assert !Live(s.procs[x]);
    }
    forall y | 0 <= y < |procs'| && procs'[y].task == j ensures !Live(procs'[y]) {
      if y < |s.procs| && y != x {
        assert procs'[y] == s.procs[y];
      }
    }
  }
}
