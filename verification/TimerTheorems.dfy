/**
Execution timers that outlive their attempt. The branches that begin a retry or find the retry quota full do
not cancel the timer, and a cancel may come too late; such a timer can overwrite the end of a task.
*/
module TimerTheorems {
  import opened Wrappers
  import opened Executor
  import opened ExecutorTheorems

  // ----- which end is final

  /** An execution timer of task `j` has not run its callback to the end and was not cancelled. */
  ghost predicate TimerPending(s: Exec, j: nat) {
    exists k :: 0 <= k < |s.timers| && s.timers[k].task == j && !s.timers[k].e.Done?
  }

  /** The execution timer an attempt has started and not stopped. */
  function TimerOf(p: Proc): Option<nat> {
    if p.Retry? then None
    else match p.a
      case A44 => None
      case A45 => None
      case A50 => None
      case A54 => None
      case A60 => None
      case Over(left) => if left.Some? then Some(left.value.timer) else None
      case A72(k) => Some(k)
      case A75(k) => Some(k)
      case A81(k) => Some(k)
      case Calling(k) => Some(k)
      case A84(k) => Some(k)
      case A85(k) => Some(k)
      case A95(k, _, _) => Some(k)
      case A97(k) => Some(k)
      case A98(k) => Some(k)
      case A99(k) => Some(k)
      case A104(k) => Some(k)
      case A115(k, _) => Some(k)
      case A116(k) => Some(k)
  }

  ghost predicate Keeps(procs: seq<Proc>, x: nat, i: nat, k: nat) {
    x < |procs| && procs[x].task == i && TimerOf(procs[x]) == Some(k)
  }

  ghost predicate KeptBySome(procs: seq<Proc>, i: nat, k: nat) {
    exists x :: Keeps(procs, x, i, k)
  }

  /** Every timer that is not done belongs to an attempt of its task, running or ended without stopping it. */
  ghost predicate TimersKept(s: Exec) {
    && (forall x :: 0 <= x < |s.procs| && TimerOf(s.procs[x]).Some? ==>
          TimerOf(s.procs[x]).value < |s.timers| && s.timers[TimerOf(s.procs[x]).value].task == s.procs[x].task)
    && (forall k :: 0 <= k < |s.timers| && !s.timers[k].e.Done? ==> KeptBySome(s.procs, s.timers[k].task, k))
  }

  /** What a step does to the timer its attempt keeps. */
  ghost predicate TimerMove(s: Exec, p: Proc, p': Proc, e: Effect) {
    && p'.task == p.task
    && (e.StartTimer? ==> TimerOf(p).None? && TimerOf(p') == Some(|s.timers|))
    && (e.Cancel? ==>
          TimerOf(p) == Some(e.timer) && TimerOf(p').None? && e.timer < |s.timers| && s.timers[e.timer].e.Armed?)
    && (!e.StartTimer? && !e.Cancel? ==> TimerOf(p') == TimerOf(p))
  }

  lemma AttemptTimer(s: Exec, t: Task, i: nat, a: AttemptPc, c: Choice)
    ensures var (a', e) := StepAttempt(s, t, a, c); TimerMove(s, Attempt(i, a), Attempt(i, a'), e)
  {
  }

  lemma MicroTimer(s: Exec, x: nat, c: Choice)
    requires x < |s.procs| && s.procs[x].task < |s.tasks|
    ensures TimerMove(s, s.procs[x], Micro(s, x, c).0, Micro(s, x, c).1)
  {
    match s.procs[x]
    case Attempt(i, a) => AttemptTimer(s, s.tasks[i], i, a, c);
    case Retry(_, _) =>
  }

  lemma KeptStep(s: Exec, x: nat, p': Proc, e: Effect)
    requires TimersKept(s) && x < |s.procs| && TimerMove(s, s.procs[x], p', e)
    ensures var i := s.procs[x].task;
      TimersKept(s.(procs := s.procs[x := p'] + Spawned(i, e), timers := ApplyTimers(s.timers, i, e)))
  {
    var i := s.procs[x].task;
    var procs', timers' := s.procs[x := p'] + Spawned(i, e), ApplyTimers(s.timers, i, e);
    forall k | 0 <= k < |timers'| && !timers'[k].e.Done? ensures KeptBySome(procs', timers'[k].task, k) {
      if k == |s.timers| {
        assert Keeps(procs', x, i, k);
      } else {
        var y :| Keeps(s.procs, y, s.timers[k].task, k);
        assert Keeps(procs', y, s.timers[k].task, k);
      }
    }
  }

  lemma FireKeepsKept(s: Exec, k: nat)
    requires TimersKept(s) && k < |s.timers| && s.timers[k].task < |s.tasks|
    ensures TimersKept(Tick(s, k))
  {
    var s' := Tick(s, k);
    forall q | 0 <= q < |s'.timers| && !s'.timers[q].e.Done? ensures KeptBySome(s'.procs, s'.timers[q].task, q) {
      assert KeptBySome(s.procs, s.timers[q].task, q);
    }
  }

  lemma SubmitKeepsKept(s: Exec, t: Task)
    requires TimersKept(s)
    ensures TimersKept(Submit(s, t))
  {
    var s' := Submit(s, t);
    forall k | 0 <= k < |s.timers| && !s.timers[k].e.Done? ensures KeptBySome(s'.procs, s.timers[k].task, k) {
      var y :| Keeps(s.procs, y, s.timers[k].task, k);
      assert Keeps(s'.procs, y, s.timers[k].task, k);
    }
  }

  lemma KeptAt(st: seq<Exec>, mv: seq<Move>, i: nat)
    requires IsRun(st, mv) && i < |st|
    ensures TimersKept(st[i])
  {
    for q := 0 to i
      invariant TimersKept(st[q])
    {
      assert Moved(st, mv, q);
      match mv[q]
      case Run(x, c) =>
        if x < |st[q].procs| && st[q].procs[x].task < |st[q].tasks| {
          MicroTimer(st[q], x, c);
          KeptStep(st[q], x, Micro(st[q], x, c).0, Micro(st[q], x, c).1);
        }
      case Fire(k) =>
        if k < |st[q].timers| && st[q].timers[k].task < |st[q].tasks| {
          FireKeepsKept(st[q], k);
        }
      case New(t) => SubmitKeepsKept(st[q], t);
    }
  }

  /**
  Attempt `x` of task `j` ended without stopping its timer, by line 101 or 113 or because its cancel came too
  late, and that timer's callback has not run to its end.
  */
  ghost predicate LeftBehind(s: Exec, j: nat, x: nat) {
    && x < |s.procs| && s.procs[x].task == j && s.procs[x].Attempt? && s.procs[x].a.Over? && s.procs[x].a.left.Some?
    && var k := s.procs[x].a.left.value.timer;
      k < |s.timers| && !s.timers[k].e.Done?
  }

  /** A task at rest has a pending timer exactly when one of its attempts left it behind. */
  lemma PendingIffLeftBehind(st: seq<Exec>, mv: seq<Move>, i: nat, j: nat)
    requires IsRun(st, mv) && i < |st| && !LiveFor(st[i].procs, j)
    ensures TimerPending(st[i], j) <==> exists x :: LeftBehind(st[i], j, x)
  {
    KeptAt(st, mv, i);
    var s := st[i];
    if TimerPending(s, j) {
      var k :| 0 <= k < |s.timers| && s.timers[k].task == j && !s.timers[k].e.Done?;
      var x: nat :| Keeps(s.procs, x, j, k);
      assert !Live(s.procs[x]);
      assert LeftBehind(s, j, x);
    }
    if x: nat :| LeftBehind(s, j, x) {
      assert TimerOf(s.procs[x]) == Some(s.procs[x].a.left.value.timer);
    }
  }

  /** A run that continues another one. */
  ghost predicate Continues(st: seq<Exec>, mv: seq<Move>, st': seq<Exec>, mv': seq<Move>) {
    IsRun(st', mv') && st <= st' && mv <= mv'
  }

  /** A task at rest without a pending timer is untouched by every move. */
  ghost predicate Final(s: Exec, j: nat, t: Task) {
    j < |s.tasks| && s.tasks[j] == t && !LiveFor(s.procs, j) && !TimerPending(s, j)
  }

  lemma RunKeepsFinal(s: Exec, x: nat, c: Choice, j: nat, t: Task)
    requires Inv(s) && x < |s.procs| && s.procs[x].task < |s.tasks| && Final(s, j, t)
    ensures Final(Step(s, x, c), j, t)
  {
    DeadStaysDead(s, x, c, j);
    MicroFair(s, x, c);
    var e, i := Micro(s, x, c).1, s.procs[x].task;
    if i == j {
      assert !Live(s.procs[x]);
    }
    TimersAfter(s, i, e, j);
  }

  lemma TimersAfter(s: Exec, i: nat, e: Effect, j: nat)
    requires !TimerPending(s, j) && (i != j || e.Nothing?)
    ensures !TimerPending(s.(timers := ApplyTimers(s.timers, i, e)), j)
  {
    var timers' := ApplyTimers(s.timers, i, e);
    forall k | 0 <= k < |timers'| && timers'[k].task == j ensures timers'[k].e.Done? {
      assert k < |s.timers| && s.timers[k].task == j;
    }
  }

  lemma FireKeepsFinal(s: Exec, k: nat, j: nat, t: Task)
    requires Final(s, j, t) && k < |s.timers| && s.timers[k].task < |s.tasks|
    ensures Final(Tick(s, k), j, t)
  {
    var s' := Tick(s, k);
    forall q | 0 <= q < |s'.timers| && s'.timers[q].task == j ensures s'.timers[q].e.Done? {
      assert s.timers[q].task == j;
    }
  }

  lemma MoveKeepsFinal(s: Exec, m: Move, j: nat, t: Task)
    requires Inv(s) && Final(s, j, t)
    ensures Final(Advance(s, m), j, t)
  {
    match m
    case Run(x, c) =>
      if x < |s.procs| {
        RunKeepsFinal(s, x, c, j, t);
      }
    case Fire(k) =>
      if k < |s.timers| {
        FireKeepsFinal(s, k, j, t);
      }
    case New(u) => NewIsAnother(s, u, j);
  }

  lemma FinalStays(st: seq<Exec>, mv: seq<Move>, i: nat, k: nat, j: nat, t: Task)
    requires IsRun(st, mv) && i <= k < |st| && Final(st[i], j, t)
    ensures Final(st[k], j, t)
  {
    for q := i to k
      invariant Final(st[q], j, t)
    {
      assert Moved(st, mv, q);
      InvAt(st, mv, q);
      MoveKeepsFinal(st[q], mv[q], j, t);
    }
  }

  lemma ExtendRun(st: seq<Exec>, mv: seq<Move>, m: Move)
    requires IsRun(st, mv)
    ensures Continues(st, mv, st + [Advance(st[|mv|], m)], mv + [m])
  {
    var st', mv' := st + [Advance(st[|mv|], m)], mv + [m];
    forall i | 0 <= i < |mv'| ensures Moved(st', mv', i) {
      assert i < |mv| ==> Moved(st, mv, i);
    }
  }

  /** A pending timer can fire and turn any state into TIMEOUT. */
  lemma PendingTimerFires(st: seq<Exec>, mv: seq<Move>, j: nat) returns (st': seq<Exec>, mv': seq<Move>)
    requires IsRun(st, mv) && j < |st[|mv|].tasks| && TimerPending(st[|mv|], j)
    ensures Continues(st, mv, st', mv')
    ensures j < |st'[|mv'|].tasks| && st'[|mv'|].tasks[j].state == TIMEOUT
  {
    var s := st[|mv|];
    var k :| 0 <= k < |s.timers| && s.timers[k].task == j && !s.timers[k].e.Done?;
    ExtendRun(st, mv, Fire(k));
    st', mv' := st + [Advance(s, Fire(k))], mv + [Fire(k)];
    if s.timers[k].e.Armed? {
      ExtendRun(st', mv', Fire(k));
      st', mv' := st' + [Advance(st'[|mv'|], Fire(k))], mv' + [Fire(k)];
    }
  }

  /** Some continuation of the run changes the state of task `j`. */
  ghost predicate CanChange(st: seq<Exec>, mv: seq<Move>, j: nat)
    requires |st| == |mv| + 1 && j < |st[|mv|].tasks|
  {
    exists st', mv' :: Continues(st, mv, st', mv') && Differs(st'[|mv'|], j, st[|mv|].tasks[j].state)
  }

  ghost predicate Differs(s: Exec, j: nat, st: TaskState) {
    j < |s.tasks| && s.tasks[j].state != st
  }

  /**
  The end a task has come to can still change exactly when it is not TIMEOUT and an attempt of the task left
  its execution timer behind: then a timeout can overwrite SUCCESS or FAILED.
  */
  lemma EndCanChangeIff(st: seq<Exec>, mv: seq<Move>, j: nat)
    requires IsRun(st, mv) && j < |st[|mv|].tasks| && !LiveFor(st[|mv|].procs, j)
    ensures CanChange(st, mv, j) <==> st[|mv|].tasks[j].state != TIMEOUT && exists x :: LeftBehind(st[|mv|], j, x)
  {
    PendingIffLeftBehind(st, mv, |mv|, j);
    var s := st[|mv|];
    if s.tasks[j].state != TIMEOUT && TimerPending(s, j) {
      var st', mv' := PendingTimerFires(st, mv, j);
      assert Continues(st, mv, st', mv') && Differs(st'[|mv'|], j, s.tasks[j].state);
    }
    if CanChange(st, mv, j) {
      var st', mv' :| Continues(st, mv, st', mv') && Differs(st'[|mv'|], j, s.tasks[j].state);
      assert st'[|mv|] == s;
      if !TimerPending(s, j) {
        FinalStays(st', mv', |mv|, |mv'|, j, s.tasks[j]);
      } else {
        RestIsForever(st', mv', |mv|, |mv'|, j);
      }
    }
  }

  // ----- an end that changes

  /** A run of one task that ends in `s`. */
  ghost predicate Reachable(s: Exec) {
    exists st, mv :: IsRun(st, mv) && st[|mv|] == s
  }

  lemma Go(s: Exec, m: Move) returns (s': Exec)
    requires Reachable(s)
    ensures s' == Advance(s, m) && Reachable(s')
  {
    var st, mv :| IsRun(st, mv) && st[|mv|] == s;
    ExtendRun(st, mv, m);
    s' := Advance(s, m);
    assert IsRun(st + [s'], mv + [m]) && (st + [s'])[|mv + [m]|] == s';
  }

  /** Attempt `x` of the only task runs from its queue to the call of the function. */
  lemma GoCall(s: Exec, x: nat) returns (s': Exec)
    requires Reachable(s) && |s.tasks| == 1 && x < |s.procs| && s.procs[x] == Attempt(0, A44)
    requires CheckResources(s.tasks[0]) && s.tasks[0].timeoutMs >= 0
    ensures Reachable(s') && s'.procs == s.procs[x := Attempt(0, Calling(|s.timers|))]
    ensures s'.timers == s.timers + [ExecTimer(0, Armed)] && s'.cnt == s.cnt
    ensures |s'.tasks| == 1 && s'.tasks[0] ==
      s.tasks[0].(state := RUNNING, errorMsg := "", calls := s.tasks[0].calls + 1)
  {
    var now := Proceed(s.tasks[0].submitTs);
    s' := Go(s, Run(x, now));
    s' := Go(s', Run(x, now));
    s' := Go(s', Run(x, now));
    assert s'.procs[x] == Attempt(0, A72(|s.timers|));
    s' := Go(s', Run(x, now));
    s' := Go(s', Run(x, now));
    s' := Go(s', Run(x, now));
    assert s'.procs == s.procs[x := Attempt(0, Calling(|s.timers|))];
  }

  /** The function throws connection_refused and a retry timer is started. */
  lemma GoThrow(s: Exec, x: nat, k: nat) returns (s': Exec)
    requires Reachable(s) && |s.tasks| == 1 && x < |s.procs| && s.procs[x] == Attempt(0, Calling(k))
    requires s.tasks[0].retryCount < s.tasks[0].maxRetry && s.cnt < MAX_CONCURRENT_RETRY
    ensures Reachable(s') && s'.timers == s.timers && s'.cnt == s.cnt + 1
    ensures s'.procs == s.procs[x := Attempt(0, Over(Some(Leftover(k, RetryBegun))))] + [Retry(0, Waiting)]
    ensures |s'.tasks| == 1 && s'.tasks[0] == s.tasks[0].(waited := s'.tasks[0].waited)
  {
    s' := Go(s, Run(x, Throws(ConnectionRefused, "")));
    s' := Go(s', Run(x, Late));
    s' := Go(s', Run(x, Late));
    s' := Go(s', Run(x, Late));
    assert s'.procs == s.procs[x := Attempt(0, Over(Some(Leftover(k, RetryBegun))))] + [Retry(0, Waiting)];
  }

  /** The retry timer fires and queues the next attempt. */
  lemma GoRetry(s: Exec, x: nat) returns (s': Exec)
    requires Reachable(s) && |s.tasks| == 1 && x < |s.procs| && s.procs[x] == Retry(0, Waiting)
    ensures Reachable(s') && s'.timers == s.timers && s'.cnt == s.cnt - 1
    ensures s'.procs == s.procs[x := Retry(0, Fired)] + [Attempt(0, A44)]
    ensures |s'.tasks| == 1 && s'.tasks[0] == s.tasks[0].(retryCount := s.tasks[0].retryCount + 1)
  {
    s' := Go(s, Run(x, Late));
    s' := Go(s', Run(x, Late));
    s' := Go(s', Run(x, Late));
    assert s'.procs == s.procs[x := Retry(0, Fired)] + [Attempt(0, A44)];
  }

  /** The function returns and the attempt stops its own timer in time. */
  lemma GoReturn(s: Exec, x: nat, k: nat) returns (s': Exec)
    requires Reachable(s) && |s.tasks| == 1 && x < |s.procs| && s.procs[x] == Attempt(0, Calling(k))
    requires k < |s.timers| && s.timers[k] == ExecTimer(0, Armed)
    ensures Reachable(s') && s'.timers == s.timers[k := ExecTimer(0, Done)]
    ensures s'.procs == s.procs[x := Attempt(0, Over(None))]
    ensures |s'.tasks| == 1 && s'.tasks[0].state == SUCCESS
  {
    s' := Go(s, Run(x, Returns));
    s' := Go(s', Run(x, Returns));
    s' := Go(s', Run(x, Returns));
    assert s'.procs == s.procs[x := Attempt(0, Over(None))];
  }

  /** The first attempt of a new task that may be retried once has thrown, and its retry has fired. */
  lemma RetryQueued() returns (s: Exec)
    ensures Reachable(s) && |s.tasks| == 1 && CheckResources(s.tasks[0]) && s.tasks[0].timeoutMs >= 0
    ensures s.procs == [Attempt(0, Over(Some(Leftover(0, RetryBegun)))), Retry(0, Fired), Attempt(0, A44)]
    ensures s.timers == [ExecTimer(0, Armed)]
  {
    var none: seq<Move> := [];
    assert IsRun([START], none) && [START][|none|] == START;
    s := Go(START, New(Task(PENDING, "", false, 0, 1, 1000, 0, 1.0, 1, 0, 0)));
    s := GoCall(s, 0);
    s := GoThrow(s, 0, 0);
    s := GoRetry(s, 1);
  }

  /**
  A task that ended in SUCCESS and can still become TIMEOUT: its first attempt threw connection_refused and
  left its timer behind when it began a retry, and its second attempt succeeded and stopped its own timer.
  */
  lemma SuccessCanBecomeTimeout() returns (st: seq<Exec>, mv: seq<Move>)
    ensures IsRun(st, mv) && |st[|mv|].tasks| == 1 && !LiveFor(st[|mv|].procs, 0)
    ensures st[|mv|].tasks[0].state == SUCCESS && LeftBehind(st[|mv|], 0, 0) && CanChange(st, mv, 0)
  {
    var s := RetryQueued();
    s := GoCall(s, 2);
    s := GoReturn(s, 2, 1);
    st, mv :| IsRun(st, mv) && st[|mv|] == s;
    assert s.procs == [Attempt(0, Over(Some(Leftover(0, RetryBegun)))), Retry(0, Fired), Attempt(0, Over(None))];
    assert s.timers == [ExecTimer(0, Armed), ExecTimer(0, Done)];
    assert LeftBehind(s, 0, 0);
    EndCanChangeIff(st, mv, 0);
  }
}
