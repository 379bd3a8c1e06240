/**
What one attempt of run_task does, move by move, while other attempts and timers go on in between: when it
calls the function, and what it reports for every way the function can end.
*/
module AttemptTheorems {
  import opened Wrappers
  import opened Executor
  import opened ExecutorTheorems

  /** Process `x` is an attempt of task `i` at `a` in state `k`. */
  ghost predicate At(st: seq<Exec>, k: nat, x: nat, i: nat, a: AttemptPc) {
    k < |st| && x < |st[k].procs| && st[k].procs[x] == Attempt(i, a)
  }

  predicate Own(m: Move, x: nat) {
    m.Run? && m.x == x
  }

  /** Moves `i` and `j` are moves of process `x`, and it makes none in between. */
  ghost predicate Next(mv: seq<Move>, x: nat, i: nat, j: nat) {
    i < j < |mv| && Own(mv[i], x) && Own(mv[j], x) && forall m :: i < m < j ==> !Own(mv[m], x)
  }

  /** Move `j` sets the state and the message of task `i` and nothing else of it. */
  ghost predicate Writes(st: seq<Exec>, j: nat, i: nat, state: TaskState, msg: string) {
    && j + 1 < |st| && i < |st[j].tasks| && i < |st[j + 1].tasks|
    && st[j + 1].tasks[i] == st[j].tasks[i].(state := state, errorMsg := msg)
  }

  /** Attempt `x` has come to its end in state `k`. */
  ghost predicate Ended(st: seq<Exec>, k: nat, x: nat) {
    k < |st| && x < |st[k].procs| && st[k].procs[x].Attempt? && st[k].procs[x].a.Over?
  }

  /** A move of the attempt itself. */
  lemma OwnMove(st: seq<Exec>, mv: seq<Move>, j: nat, x: nat, i: nat, a: AttemptPc)
    requires IsRun(st, mv) && j < |mv| && Own(mv[j], x) && At(st, j, x, i, a)
    ensures i < |st[j].tasks| && |st[j + 1].tasks| == |st[j].tasks|
    ensures var (a', e) := StepAttempt(st[j], st[j].tasks[i], a, mv[j].c);
      && At(st, j + 1, x, i, a')
      && st[j + 1].tasks[i] == ApplyTask(st[j].tasks[i], e)
      && st[j + 1].cnt == ApplyCount(st[j].cnt, e)
      && st[j + 1].timers == ApplyTimers(st[j].timers, i, e)
      && st[j + 1].procs == st[j].procs[x := Attempt(i, a')] + Spawned(i, e)
  {
    InvAt(st, mv, j);
    assert Moved(st, mv, j);
  }

  lemma OtherMove(st: seq<Exec>, mv: seq<Move>, j: nat, x: nat, i: nat, a: AttemptPc)
    requires IsRun(st, mv) && j < |mv| && !Own(mv[j], x) && At(st, j, x, i, a)
    ensures At(st, j + 1, x, i, a)
  {
    assert Moved(st, mv, j);
  }

  /** Between two moves of its own an attempt stays where it is. */
  lemma Stays(st: seq<Exec>, mv: seq<Move>, x: nat, i: nat, a: AttemptPc, j: nat, j': nat)
    requires IsRun(st, mv) && Next(mv, x, j, j') && At(st, j + 1, x, i, a)
    ensures At(st, j', x, i, a)
  {
    for k := j + 1 to j'
      invariant At(st, k, x, i, a)
    {
      OtherMove(st, mv, k, x, i, a);
    }
  }

  /** Move `j` cancels timer `k` if that comes in time, and leaves all timers alone otherwise. */
  ghost predicate Cancels(st: seq<Exec>, mv: seq<Move>, j: nat, k: nat) {
    && j < |mv| && mv[j].Run? && j + 1 < |st|
    && st[j + 1].timers ==
       if !mv[j].c.Late? && k < |st[j].timers| && st[j].timers[k].e.Armed?
       then st[j].timers[k := st[j].timers[k].(e := Done)] else st[j].timers
  }

  // ----- up to the call

  /** A task that asks for more than four cores or 8192 MB fails at once. */
  lemma TooFewResources(st: seq<Exec>, mv: seq<Move>, x: nat, i: nat, j0: nat, j1: nat)
    requires IsRun(st, mv) && At(st, j0, x, i, A44) && Next(mv, x, j0, j1)
    requires i < |st[j0].tasks| && (st[j0].tasks[i].cpuCore > 4.0 || st[j0].tasks[i].memMb > 8192)
    ensures Writes(st, j1, i, FAILED, "Insufficient resources") && Ended(st, j1 + 1, x)
  {
    OwnMove(st, mv, j0, x, i, A44);
    Stays(st, mv, x, i, A45, j0, j1);
    OwnMove(st, mv, j1, x, i, A45);
  }

  ghost predicate EnoughResources(t: Task) {
    t.cpuCore <= 4.0 && t.memMb <= 8192
  }

  /** A task whose time is up when the attempt reads the clock times out without being called. */
  lemma TooLate(st: seq<Exec>, mv: seq<Move>, x: nat, i: nat, j0: nat, j1: nat, j2: nat, now: int)
    requires IsRun(st, mv) && At(st, j0, x, i, A44) && Next(mv, x, j0, j1) && Next(mv, x, j1, j2)
    requires i < |st[j0].tasks| && EnoughResources(st[j0].tasks[i])
    requires i < |st[j1].tasks| && mv[j1].c == Proceed(now)
    requires now - st[j1].tasks[i].submitTs > st[j1].tasks[i].timeoutMs
    ensures Writes(st, j2, i, TIMEOUT, "Execution timeout") && Ended(st, j2 + 1, x)
  {
    OwnMove(st, mv, j0, x, i, A44);
    Stays(st, mv, x, i, A50, j0, j1);
    OwnMove(st, mv, j1, x, i, A50);
    Stays(st, mv, x, i, A54, j1, j2);
    OwnMove(st, mv, j2, x, i, A54);
  }

  /** A task with enough resources and time gets an execution timer. */
  lemma GetsTimer(st: seq<Exec>, mv: seq<Move>, x: nat, i: nat, j0: nat, j1: nat, j2: nat, now: int)
    requires IsRun(st, mv) && At(st, j0, x, i, A44) && Next(mv, x, j0, j1) && Next(mv, x, j1, j2)
    requires i < |st[j0].tasks| && EnoughResources(st[j0].tasks[i])
    requires i < |st[j1].tasks| && mv[j1].c == Proceed(now)
    requires now - st[j1].tasks[i].submitTs <= st[j1].tasks[i].timeoutMs
    ensures At(st, j2 + 1, x, i, A72(|st[j2].timers|)) && st[j2 + 1].timers == st[j2].timers + [ExecTimer(i, Armed)]
  {
    OwnMove(st, mv, j0, x, i, A44);
    Stays(st, mv, x, i, A50, j0, j1);
    OwnMove(st, mv, j1, x, i, A50);
    Stays(st, mv, x, i, A60, j1, j2);
    OwnMove(st, mv, j2, x, i, A60);
  }

  /** Then it is reported RUNNING and, if its function is known, called. */
  lemma GetsCalled(st: seq<Exec>, mv: seq<Move>, x: nat, i: nat, k: nat, j0: nat, j1: nat, j2: nat)
    requires IsRun(st, mv) && At(st, j0, x, i, A72(k)) && Next(mv, x, j0, j1) && Next(mv, x, j1, j2)
    ensures Writes(st, j0, i, RUNNING, "")
    ensures !mv[j1].c.Unknown? ==>
      && At(st, j2 + 1, x, i, Calling(k)) && i < |st[j2].tasks| && i < |st[j2 + 1].tasks|
      && st[j2 + 1].tasks[i] == st[j2].tasks[i].(calls := st[j2].tasks[i].calls + 1)
  {
    OwnMove(st, mv, j0, x, i, A72(k));
    Stays(st, mv, x, i, A75(k), j0, j1);
    OwnMove(st, mv, j1, x, i, A75(k));
    if !mv[j1].c.Unknown? {
      Stays(st, mv, x, i, A81(k), j1, j2);
      OwnMove(st, mv, j2, x, i, A81(k));
    }
  }

  // ----- after the call

  /** When the function returns, the attempt reports SUCCESS, cancels its timer and ends. */
  lemma ReturnIsSuccess(st: seq<Exec>, mv: seq<Move>, x: nat, i: nat, k: nat, j0: nat, j1: nat, j2: nat)
    requires IsRun(st, mv) && At(st, j0, x, i, Calling(k)) && Next(mv, x, j0, j1) && Next(mv, x, j1, j2)
    requires mv[j0].c.Returns?
    ensures Writes(st, j1, i, SUCCESS, "") && Cancels(st, mv, j2, k) && Ended(st, j2 + 1, x)
  {
    OwnMove(st, mv, j0, x, i, Calling(k));
    Stays(st, mv, x, i, A84(k), j0, j1);
    OwnMove(st, mv, j1, x, i, A84(k));
    Stays(st, mv, x, i, A85(k), j1, j2);
    OwnMove(st, mv, j2, x, i, A85(k));
  }

  /** In move `j` the attempt meets an exception with code `ec`: thrown by the function, or because there is none. */
  ghost predicate Catches(st: seq<Exec>, mv: seq<Move>, x: nat, i: nat, k: nat, j: nat, ec: ErrorCode, what: string) {
    && j < |mv| && Own(mv[j], x)
    && ((At(st, j, x, i, Calling(k)) && mv[j].c == Throws(ec, what)) ||
        (At(st, j, x, i, A75(k)) && mv[j].c == Unknown(what) && ec == NoCode))
  }

  /** The attempt will try again: a transient error and retries left in state `j`. */
  ghost predicate TriesAgain(st: seq<Exec>, j: nat, i: nat, ec: ErrorCode) {
    && (ec == ConnectionRefused || ec == HostUnreachable || ec == OperationAborted)
    && j < |st| && i < |st[j].tasks| && st[j].tasks[i].retryCount < st[j].tasks[i].maxRetry
  }

  lemma AfterCatch(st: seq<Exec>, mv: seq<Move>, x: nat, i: nat, k: nat, j0: nat, j1: nat, j2: nat,
                   ec: ErrorCode, what: string)
    requires IsRun(st, mv) && Catches(st, mv, x, i, k, j0, ec, what) && Next(mv, x, j0, j1) && Next(mv, x, j1, j2)
    ensures At(st, j2, x, i, if TriesAgain(st, j1, i, ec) then A97(k) else A115(k, what))
    ensures i < |st[j0].tasks| && |st[j0 + 1].tasks| == |st[j0].tasks| && st[j0 + 1].tasks[i] == st[j0].tasks[i]
    ensures i < |st[j1].tasks| && |st[j1 + 1].tasks| == |st[j1].tasks| && st[j1 + 1].tasks[i] == st[j1].tasks[i]
  {
    if At(st, j0, x, i, Calling(k)) {
      OwnMove(st, mv, j0, x, i, Calling(k));
    } else {
      OwnMove(st, mv, j0, x, i, A75(k));
    }
    Stays(st, mv, x, i, A95(k, ec, what), j0, j1);
    OwnMove(st, mv, j1, x, i, A95(k, ec, what));
    Stays(st, mv, x, i, if TriesAgain(st, j1, i, ec) then A97(k) else A115(k, what), j1, j2);
  }

  /**
  An error that is not transient, or no retries left: the attempt reports FAILED with the exception's text
  and cancels its timer.
  */
  lemma FailureIsReported(st: seq<Exec>, mv: seq<Move>, x: nat, i: nat, k: nat, j0: nat, j1: nat, j2: nat, j3: nat,
                          ec: ErrorCode, what: string)
    requires IsRun(st, mv) && Catches(st, mv, x, i, k, j0, ec, what)
    requires Next(mv, x, j0, j1) && Next(mv, x, j1, j2) && Next(mv, x, j2, j3)
    requires !TriesAgain(st, j1, i, ec)
    ensures Writes(st, j2, i, FAILED, "Execution failed: " + what) && Cancels(st, mv, j3, k) && Ended(st, j3 + 1, x)
  {
    AfterCatch(st, mv, x, i, k, j0, j1, j2, ec, what);
    OwnMove(st, mv, j2, x, i, A115(k, what));
    Stays(st, mv, x, i, A116(k), j2, j3);
    OwnMove(st, mv, j3, x, i, A116(k));
  }

  /**
  A transient error with retries left: the attempt counts itself; if ten were counted already it takes the
  count back and reports FAILED, otherwise it starts a retry timer and ends without a report.
  */
  lemma TransientError(st: seq<Exec>, mv: seq<Move>, x: nat, i: nat, k: nat, j0: nat, j1: nat, j2: nat, j3: nat,
                       ec: ErrorCode, what: string)
    requires IsRun(st, mv) && Catches(st, mv, x, i, k, j0, ec, what)
    requires Next(mv, x, j0, j1) && Next(mv, x, j1, j2) && Next(mv, x, j2, j3)
    requires TriesAgain(st, j1, i, ec)
    ensures st[j2 + 1].cnt == st[j2].cnt + 1
    ensures st[j2].cnt >= 10 ==> st[j3 + 1].cnt == st[j3].cnt - 1 && At(st, j3 + 1, x, i, A99(k))
    ensures st[j2].cnt < 10 ==>
      && Ended(st, j3 + 1, x) && |st[j3 + 1].procs| == |st[j3].procs| + 1
      && st[j3 + 1].procs[|st[j3].procs|] == Retry(i, Waiting)
  {
    AfterCatch(st, mv, x, i, k, j0, j1, j2, ec, what);
    OwnMove(st, mv, j2, x, i, A97(k));
    if st[j2].cnt >= 10 {
      Stays(st, mv, x, i, A98(k), j2, j3);
      OwnMove(st, mv, j3, x, i, A98(k));
    } else {
      Stays(st, mv, x, i, A104(k), j2, j3);
      OwnMove(st, mv, j3, x, i, A104(k));
    }
  }

  lemma QuotaFullIsReported(st: seq<Exec>, mv: seq<Move>, x: nat, i: nat, k: nat, j3: nat, j4: nat)
    requires IsRun(st, mv) && At(st, j3 + 1, x, i, A99(k)) && Next(mv, x, j3, j4)
    ensures Writes(st, j4, i, FAILED, "Retry quota full") && Ended(st, j4 + 1, x)
  {
    Stays(st, mv, x, i, A99(k), j3, j4);
    OwnMove(st, mv, j4, x, i, A99(k));
  }

  // ----- and back: why a report was made

  /** The move by which an attempt came to where it is. */
  lemma {:induction false} CameFrom(st: seq<Exec>, mv: seq<Move>, x: nat, i: nat, a: AttemptPc, k: nat) returns (j: nat)
    requires IsRun(st, mv) && At(st, k, x, i, a) && a != A44
    ensures j < k && j < |mv| && Own(mv[j], x) && At(st, j + 1, x, i, a)
    ensures forall m :: j < m < k ==> !Own(mv[m], x)
    decreases k
  {
    if k > 0 {
      assert Moved(st, mv, k - 1);
      j := k - 1;
      if !Own(mv[j], x) {
        NotOwn(st, mv, x, i, a, j);
        j := CameFrom(st, mv, x, i, a, k - 1);
      }
    }
  }

  lemma NotOwn(st: seq<Exec>, mv: seq<Move>, x: nat, i: nat, a: AttemptPc, j: nat)
    requires IsRun(st, mv) && j < |mv| && !Own(mv[j], x) && At(st, j + 1, x, i, a) && a != A44
    ensures At(st, j, x, i, a)
  {
    assert Moved(st, mv, j);
  }

  lemma WasAttempt(st: seq<Exec>, mv: seq<Move>, x: nat, i: nat, a: AttemptPc, j: nat) returns (a0: AttemptPc)
    requires IsRun(st, mv) && j < |mv| && Own(mv[j], x) && At(st, j + 1, x, i, a) && a != A44
    ensures At(st, j, x, i, a0) && i < |st[j].tasks| && StepAttempt(st[j], st[j].tasks[i], a0, mv[j].c).0 == a
  {
    InvAt(st, mv, j);
    assert Moved(st, mv, j);
    a0 := st[j].procs[x].a;
  }

  /** An attempt whose function has thrown, or was not found, or that is still calling it reports no SUCCESS. */
  lemma SuccessNeedsReturn(st: seq<Exec>, mv: seq<Move>, j: nat, i: nat) returns (x: nat, k: nat, j0: nat)
    requires IsRun(st, mv) && j < |mv| && i < |st[j].tasks| && i < |st[j + 1].tasks|
    requires st[j + 1].tasks[i].state == SUCCESS && st[j].tasks[i].state != SUCCESS
    ensures Next(mv, x, j0, j) && At(st, j0, x, i, Calling(k)) && mv[j0].c.Returns?
  {
    InvAt(st, mv, j);
    assert Moved(st, mv, j);
    x := mv[j].x;
    k := Reporting(st[j], x, mv[j].c, i);
    j0 := CameFrom(st, mv, x, i, A84(k), j);
    var a0 := WasAttempt(st, mv, x, i, A84(k), j0);
  }

  lemma Reporting(s: Exec, x: nat, c: Choice, i: nat) returns (k: nat)
    requires x < |s.procs| && s.procs[x].task < |s.tasks| && i < |s.tasks|
    requires Step(s, x, c).tasks[i].state == SUCCESS && s.tasks[i].state != SUCCESS
    ensures s.procs[x] == Attempt(i, A84(k))
  {
    assert s.procs[x].Attempt? && s.procs[x].a.A84?;
    k := s.procs[x].a.timer;
  }

  /** A report "Execution failed" is that of an attempt that met an exception and does not try again. */
  lemma FailureNeedsThrow(st: seq<Exec>, mv: seq<Move>, j: nat, x: nat, i: nat, k: nat, what: string)
    returns (j0: nat, j1: nat, ec: ErrorCode)
    requires IsRun(st, mv) && j < |mv| && Own(mv[j], x) && At(st, j, x, i, A115(k, what))
    ensures Next(mv, x, j1, j) && Next(mv, x, j0, j1) && Catches(st, mv, x, i, k, j0, ec, what)
    ensures !TriesAgain(st, j1, i, ec)
  {
    j1 := CameFrom(st, mv, x, i, A115(k, what), j);
    var a1 := WasAttempt(st, mv, x, i, A115(k, what), j1);
    ec := a1.ec;
    j0 := CameFrom(st, mv, x, i, a1, j1);
    var a0 := WasAttempt(st, mv, x, i, a1, j0);
  }

  // ----- what never changes

  /** The fields of a task that nobody writes. */
  ghost predicate SameTask(t: Task, t': Task) {
    && t'.maxRetry == t.maxRetry && t'.timeoutMs == t.timeoutMs && t'.submitTs == t.submitTs
    && t'.cpuCore == t.cpuCore && t'.memMb == t.memMb
  }

  /** A submitted task starts PENDING with one attempt queued, and keeps what it was submitted with for ever. */
  lemma SubmittedAs(st: seq<Exec>, mv: seq<Move>, i: nat, k: nat)
    requires IsRun(st, mv) && i < |mv| && mv[i].New? && i < k < |st|
    ensures var j := |st[i].tasks|;
      && j < |st[i + 1].tasks| && st[i + 1].tasks[j].state == PENDING && st[i + 1].tasks[j].retryCount == 0
      && st[i + 1].procs == st[i].procs + [Attempt(j, A44)]
      && j < |st[k].tasks| && SameTask(mv[i].t, st[k].tasks[j])
  {
    var j := |st[i].tasks|;
    assert Moved(st, mv, i);
    for q := i + 1 to k
      invariant j < |st[q].tasks| && SameTask(mv[i].t, st[q].tasks[j])
    {
      assert Moved(st, mv, q);
    }
  }
}
