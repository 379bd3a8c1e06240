/**
What the calls of the thread pool do: run alone, each of them; and over every run, when enqueue throws, when
the destructor stops draining and how many workers there are.
*/
module PoolCalls {
  import opened Iteration
  import opened Wrappers
  import opened ThreadPool
  import opened PoolInvariant
  import opened PoolTheorems
  import opened Sums

  // ----- run alone

  function Alone(t: Tid): Pool -> Pool {
    (s: Pool) => if t < |s.pcs| then Step(s, t, Proceed) else s
  }

  /** Some number of steps of thread `t` alone leads from `s` to `s'`; pushes and waits succeed. */
  ghost predicate Leads(s: Pool, t: Tid, s': Pool) {
    Arrives(Alone(t), s, s')
  }

  lemma LeadsNowhere(s: Pool, t: Tid)
    ensures Leads(s, t, s)
  {
    ArrivesAtOnce(Alone(t), s);
  }

  lemma On(s0: Pool, s: Pool, t: Tid) returns (s': Pool)
    requires Leads(s0, t, s) && t < |s.pcs|
    ensures s' == Step(s, t, Proceed) && Leads(s0, t, s')
  {
    ArrivesNext(Alone(t), s0, s);
    s' := Step(s, t, Proceed);
  }

  ghost function Put(s: Pool, t: Tid, pc: Pc): (s': Pool)
    requires t < |s.pcs|
    ensures |s'.pcs| == |s.pcs|
  {
    s.(pcs := s.pcs[t := pc])
  }

  /** enqueue on a running pool accepts one new task, as the last of the queue, and counts it. */
  lemma EnqueueAlone(s: Pool, t: Tid) returns (s': Pool)
    requires t < |s.pcs| && s.pcs[t] == Client(Free) && !s.stop
    ensures Leads(Step(s, t, Enqueue), t, s')
    ensures s' == s.(queue := s.queue + [s.nextId], accepted := s.accepted + [s.nextId], nextId := s.nextId + 1,
                     leftover := Wrap(s.leftover + 1))
  {
    var s0 := Step(s, t, Enqueue);
    LeadsNowhere(s0, t);
    s' := On(s0, s0, t);
    s' := On(s0, s', t);
    s' := On(s0, s', t);
    s' := On(s0, s', t);
    assert s'.pcs == s.pcs;
  }

  /** A failed push on a running pool is tried again until the task is accepted. */
  lemma PushIsRetried(s: Pool, t: Tid, p: Id) returns (s': Pool)
    requires t < |s.pcs| && s.pcs[t] == Client(P31(p)) && !s.stop
    ensures Step(Step(s, t, Fail), t, Proceed) == s
    ensures Leads(s, t, s')
    ensures s' == Put(s, t, Client(Free)).(queue := s.queue + [p], accepted := s.accepted + [p],
                                           leftover := Wrap(s.leftover + 1))
  {
    assert Step(Step(s, t, Fail), t, Proceed).pcs == s.pcs;
    LeadsNowhere(s, t);
    s' := On(s, s, t);
    s' := On(s, s', t);
    s' := On(s, s', t);
    assert s'.pcs == s.pcs[t := Client(Free)];
  }

  /** enqueue on a stopped pool throws and changes nothing. */
  lemma EnqueueStopped(s: Pool, t: Tid) returns (s': Pool)
    requires t < |s.pcs| && s.pcs[t] == Client(Free) && s.stop
    ensures Leads(Step(s, t, Enqueue), t, s') && s' == Put(s, t, Client(Threw)) && Step(s', t, Proceed) == s
  {
    var s0 := Step(s, t, Enqueue);
    LeadsNowhere(s0, t);
    s' := On(s0, s0, t);
    assert s'.pcs == s.pcs[t := Client(Threw)];
    assert Step(s', t, Proceed).pcs == s.pcs;
  }

  /** remove_threads lowers the target by `n`, at most to zero; shutdown stops the pool. */
  lemma RemoveAndShutdown(s: Pool, t: Tid, n: nat) returns (s': Pool, s'': Pool)
    requires t < |s.pcs| && s.pcs[t] == Client(Free)
    ensures Leads(Step(s, t, RemoveThreads(n)), t, s') && s' == s.(target := if n < s.target then s.target - n else 0)
    ensures Leads(Step(s, t, Shutdown), t, s'') && s'' == s.(stop := true)
  {
    var s0 := Step(s, t, RemoveThreads(n));
    LeadsNowhere(s0, t);
    s' := On(s0, s0, t);
    s' := On(s0, s', t);
    assert s'.pcs == s.pcs;
    s0 := Step(s, t, Shutdown);
    LeadsNowhere(s0, t);
    s'' := On(s0, s0, t);
    assert s''.pcs == s.pcs;
  }

  lemma {:induction false} SpawnAlone(s0: Pool, s: Pool, t: Tid, n: nat) returns (s': Pool)
    requires Leads(s0, t, s) && t < |s.pcs| && s.pcs[t] == Client(A78(n))
    ensures Leads(s0, t, s') && s' == s.(pcs := s.pcs[t := Client(Free)] + seq(n, _ => Worker(W43)))
    decreases n
  {
    s' := On(s0, s, t);
    if n > 0 {
      s' := SpawnAlone(s0, s', t, n - 1);
      assert s'.pcs == s.pcs[t := Client(Free)] + seq(n, _ => Worker(W43));
    } else {
      assert s'.pcs == s.pcs[t := Client(Free)] + [];
    }
  }

  /** add_threads raises the target by `n` and starts `n` workers. */
  lemma AddAlone(s: Pool, t: Tid, n: nat) returns (s': Pool)
    requires t < |s.pcs| && s.pcs[t] == Client(Free)
    ensures Leads(Step(s, t, AddThreads(n)), t, s')
    ensures s' == s.(target := Wrap(s.target + n), pcs := s.pcs + seq(n, _ => Worker(W43)))
  {
    var s0 := Step(s, t, AddThreads(n));
    LeadsNowhere(s0, t);
    s' := On(s0, s0, t);
    s' := SpawnAlone(s0, s', t, n);
    assert s'.pcs == s.pcs + seq(n, _ => Worker(W43));
  }

  /** The pool after its whole queue has been deleted. */
  ghost function Emptied(s: Pool): Pool {
    s.(queue := [], popped := s.popped + s.queue, drained := s.drained + s.queue,
       leftover := Wrap(s.leftover - |s.queue|))
  }

  /** The pool after the first task of its queue has been deleted. */
  ghost function OneDrained(s: Pool): Pool
    requires s.queue != []
  {
    s.(queue := s.queue[1..], popped := s.popped + [s.queue[0]], drained := s.drained + [s.queue[0]],
       leftover := Wrap(s.leftover - 1))
  }

  lemma DeleteTask(s0: Pool, s: Pool, t: Tid, p: Id) returns (s': Pool)
    requires Leads(s0, t, s) && t < |s.pcs| && s.pcs[t] == Client(X22(p))
    ensures Leads(s0, t, s')
    ensures s' == Put(s, t, Client(X21)).(drained := s.drained + [p], leftover := Wrap(s.leftover - 1))
  {
    s' := On(s0, s, t);
    s' := On(s0, s', t);
    assert s'.pcs == s.pcs[t := Client(X21)];
  }

  lemma DrainOne(s0: Pool, s: Pool, t: Tid) returns (s': Pool)
    requires Leads(s0, t, s) && t < |s.pcs| && s.pcs[t] == Client(X21) && s.queue != []
    ensures Leads(s0, t, s') && s' == OneDrained(s)
  {
    s' := On(s0, s, t);
    s' := DeleteTask(s0, s', t, s.queue[0]);
    assert s'.pcs == s.pcs;
  }

  lemma EmptiedAfterOne(s: Pool)
    requires s.queue != []
    ensures Emptied(OneDrained(s)) == Emptied(s)
  {
    var q := s.queue;
    assert s.popped + [q[0]] + q[1..] == s.popped + q && s.drained + [q[0]] + q[1..] == s.drained + q;
    WrapTwice(s.leftover, |q|);
  }

  lemma {:induction false} DrainAlone(s0: Pool, s: Pool, t: Tid) returns (s': Pool)
    requires Leads(s0, t, s) && t < |s.pcs| && s.pcs[t] == Client(X21) && s.leftover < SIZE
    ensures Leads(s0, t, s') && s' == Put(Emptied(s), t, Client(Free))
    decreases |s.queue|
  {
    if s.queue == [] {
      s' := On(s0, s, t);
      assert s.popped + s.queue == s.popped && s.drained + s.queue == s.drained;
    } else {
      s' := DrainOne(s0, s, t);
      s' := DrainAlone(s0, s', t);
      EmptiedAfterOne(s);
    }
  }

  lemma WrapTwice(x: int, n: nat)
    requires n > 0
    ensures Wrap(Wrap(x - 1) - (n - 1)) == Wrap(x - n)
  {
    WrapShift(x - 1, 1 - n);
  }

  /** The destructor stops the pool, deletes every queued task and leaves the queue empty. */
  lemma DestroyAlone(s: Pool, t: Tid) returns (s': Pool)
    requires t < |s.pcs| && s.pcs[t] == Client(Free) && s.leftover < SIZE
    ensures Leads(Step(s, t, Destroy), t, s') && s' == Emptied(s).(stop := true)
  {
    var s0 := Step(s, t, Destroy);
    LeadsNowhere(s0, t);
    s' := On(s0, s0, t);
    s' := DrainAlone(s0, s', t);
    assert s'.pcs == s.pcs;
  }

  /** A new worker counts itself and comes to its loop. */
  lemma WorkerStarts(s: Pool, t: Tid)
    requires t < |s.pcs| && s.pcs[t] == Worker(W43)
    ensures Step(s, t, Proceed) == Put(s, t, Worker(W45)).(active := Wrap(s.active + 1))
  {
  }

  /** A worker past its task leaves a pool that has too many threads, and goes round otherwise. */
  lemma AfterTask(s0: Pool, s: Pool, t: Tid) returns (s': Pool)
    requires Leads(s0, t, s) && t < |s.pcs| && s.pcs[t] == Worker(W55)
    ensures Leads(s0, t, s')
    ensures s' == if s.active > s.target then Put(s, t, Worker(Gone)).(active := s.active - 1)
                  else Put(s, t, Worker(W45))
  {
    s' := On(s0, s, t);
    s' := On(s0, s', t);
    if s.active > s.target {
      s' := On(s0, s', t);
      s' := On(s0, s', t);
      s' := On(s0, s', t);
      assert s'.pcs == s.pcs[t := Worker(Gone)];
    } else {
      assert s'.pcs == s.pcs[t := Worker(W45)];
    }
  }

  /** The pool after a worker has executed the first task of the queue, if there is one. */
  ghost function Executed(s: Pool): Pool {
    if s.queue == [] then s
    else
      var p := s.queue[0];
      s.(queue := s.queue[1..], popped := s.popped + [p], started := s.started + [p], executed := s.executed + [p],
         leftover := Wrap(s.leftover - 1))
  }

  /** From the loop head to line 55 through the pop. */
  lemma PopsFirst(s: Pool, t: Tid) returns (s': Pool)
    requires t < |s.pcs| && s.pcs[t] == Worker(W45) && !s.stop
    ensures Leads(s, t, s')
    ensures s' == if s.queue == [] then Put(s, t, Worker(W55))
                  else Put(s, t, Worker(W49(s.queue[0]))).(queue := s.queue[1..], popped := s.popped + [s.queue[0]])
  {
    LeadsNowhere(s, t);
    s' := On(s, s, t);
    s' := On(s, s', t);
    s' := On(s, s', t);
    assert s'.pcs == s.pcs[t := s'.pcs[t]];
  }

  /** The call of the popped task, and its count. */
  lemma CallsTask(s0: Pool, s: Pool, t: Tid, p: Id) returns (s': Pool)
    requires Leads(s0, t, s) && t < |s.pcs| && s.pcs[t] == Worker(W49(p))
    ensures Leads(s0, t, s')
    ensures s' == Put(s, t, Worker(W55)).(started := s.started + [p], executed := s.executed + [p],
                                          leftover := Wrap(s.leftover - 1))
  {
    s' := On(s0, s, t);
    s' := On(s0, s', t);
    s' := On(s0, s', t);
    assert s'.pcs == s.pcs[t := Worker(W55)];
  }

  /** One round of a worker whose wait succeeds: it executes the first queued task and counts it off. */
  lemma WorkerRound(s: Pool, t: Tid) returns (s': Pool)
    requires t < |s.pcs| && s.pcs[t] == Worker(W45) && !s.stop
    ensures Leads(s, t, s')
    ensures var x := Executed(s);
      s' == if s.active > s.target then Put(x, t, Worker(Gone)).(active := s.active - 1) else x
  {
    s' := PopsFirst(s, t);
    if s.queue != [] {
      s' := CallsTask(s, s', t, s.queue[0]);
      assert s'.pcs == s.pcs[t := Worker(W55)];
    }
    assert s' == Put(Executed(s), t, Worker(W55));
    s' := AfterTask(s, s', t);
    assert s.pcs[t := s.pcs[t]] == s.pcs;
    assert s.pcs[t := Worker(W55)][t := Worker(W45)] == s.pcs;
    assert s.pcs[t := Worker(W55)][t := Worker(Gone)] == s.pcs[t := Worker(Gone)];
  }

  /** A round in which the wait times out executes nothing; a worker of a stopped pool leaves. */
  lemma WorkerWithoutTask(s: Pool, t: Tid) returns (s': Pool, s'': Pool)
    requires t < |s.pcs| && s.pcs[t] == Worker(W47)
    ensures Leads(Step(s, t, Fail), t, s')
    ensures s' == if s.active > s.target then Put(s, t, Worker(Gone)).(active := s.active - 1)
                  else Put(s, t, Worker(W45))
    ensures var z := Put(s, t, Worker(W45)).(stop := true);
      Leads(z, t, s'') && s'' == Put(z, t, Worker(Gone)).(active := Wrap(s.active - 1))
  {
    var s0 := Step(s, t, Fail);
    LeadsNowhere(s0, t);
    s' := AfterTask(s0, s0, t);
    assert s'.pcs == s.pcs[t := s'.pcs[t]];
    var z := Put(s, t, Worker(W45)).(stop := true);
    LeadsNowhere(z, t);
    s'' := On(z, z, t);
    s'' := On(z, s'', t);
    assert s''.pcs == z.pcs[t := Worker(Gone)];
  }

  /** A worker that finds enough room after all, or loses the race at line 60, goes round without leaving. */
  lemma StaysInPool(s: Pool, t: Tid) returns (s': Pool)
    requires t < |s.pcs| && s.pcs[t].Worker?
    requires (s.pcs[t].w.W59? && s.pcs[t].w.cur <= s.target) || (s.pcs[t].w.W60? && s.pcs[t].w.cur != s.active)
    ensures Leads(s, t, s') && s' == Put(s, t, Worker(W45))
  {
    LeadsNowhere(s, t);
    s' := On(s, s, t);
    s' := On(s, s', t);
    assert s'.pcs == s.pcs[t := Worker(W45)];
  }

  // ----- stopping, over every run

  ghost predicate AtClient(r: Log, k: nat, u: Tid, c: ClientPc) {
    k < |r.st| && u < |r.st[k].pcs| && r.st[k].pcs[u] == Client(c)
  }

  /** Move `i` is the one by which shutdown or the destructor stops the pool. */
  ghost predicate Stops(r: Log, i: nat)
    requires |r.st| == |r.mv| + 1
  {
    i < |r.mv| && (AtClient(r, i, r.mv[i].t, H97) || AtClient(r, i, r.mv[i].t, X17))
  }

  lemma StopStep(r: Log, n: nat, m: nat, i: nat)
    requires IsRun(r, n, m) && i < |r.mv|
    ensures r.st[i + 1].stop <==> r.st[i].stop || Stops(r, i)
  {
    assert Moved(r, i);
  }

  /** The pool is stopped exactly when an earlier move was that of shutdown or the destructor. */
  lemma {:induction false} StoppedIff(r: Log, n: nat, m: nat, k: nat)
    requires IsRun(r, n, m) && k < |r.st|
    ensures r.st[k].stop <==> exists i :: 0 <= i < k && Stops(r, i)
    decreases k
  {
    if k > 0 {
      StoppedIff(r, n, m, k - 1);
      StopStep(r, n, m, k - 1);
      if r.st[k].stop && r.st[k - 1].stop {
        var i :| 0 <= i < k - 1 && Stops(r, i);
        assert 0 <= i < k && Stops(r, i);
      }
    }
  }

  /** Move `i` makes an enqueue throw. */
  ghost predicate Throws(r: Log, i: nat)
    requires |r.st| == |r.mv| + 1
  {
    i < |r.mv| && AtClient(r, i + 1, r.mv[i].t, Threw)
  }

  /** Line 28, or line 32 after a failed push. */
  ghost predicate Checks(r: Log, i: nat)
    requires |r.st| == |r.mv| + 1
  {
    && i < |r.mv| && r.mv[i].t < |r.st[i].pcs| && r.st[i].pcs[r.mv[i].t].Client?
    && (r.st[i].pcs[r.mv[i].t].k.P28? || r.st[i].pcs[r.mv[i].t].k.P32?)
  }

  /** An enqueue throws exactly when it checks at line 28 or 32 and shutdown or the destructor came earlier. */
  lemma ThrowsIffStopped(r: Log, n: nat, m: nat, i: nat)
    requires IsRun(r, n, m) && i < |r.mv|
    ensures Throws(r, i) <==> Checks(r, i) && exists q :: 0 <= q < i && Stops(r, q)
  {
    StoppedIff(r, n, m, i);
    assert Moved(r, i);
  }

  /** In the middle of an enqueue that has not pushed yet. */
  ghost predicate Offering(r: Log, k: nat, u: Tid) {
    k < |r.st| && u < |r.st[k].pcs| && Offer(r.st[k].pcs[u]).Some?
  }

  lemma OfferBefore(r: Log, n: nat, m: nat, k: nat, u: Tid)
    requires IsRun(r, n, m) && k < |r.mv| && Offering(r, k + 1, u)
    ensures Offering(r, k, u) || (r.mv[k].t == u && AtClient(r, k, u, P28) && !r.st[k].stop)
  {
    assert Moved(r, k);
  }

  /** Only an enqueue that found the pool running at line 28 comes to push. */
  lemma {:induction false} OfferBegins(r: Log, n: nat, m: nat, k: nat, u: Tid) returns (i: nat)
    requires IsRun(r, n, m) && Offering(r, k, u)
    ensures i < k && r.mv[i].t == u && AtClient(r, i, u, P28) && !r.st[i].stop
    ensures forall q :: i < q <= k ==> Offering(r, q, u)
    decreases k
  {
    if k > 0 {
      OfferBefore(r, n, m, k - 1, u);
      i := k - 1;
      if Offering(r, k - 1, u) {
        i := OfferBegins(r, n, m, k - 1, u);
      }
    }
  }

  /** A task is accepted only from an enqueue whose line 28 came before shutdown and the destructor. */
  lemma AcceptedWhileRunning(r: Log, n: nat, m: nat, j: nat) returns (i: nat)
    requires IsRun(r, n, m) && j < |r.mv| && r.st[j + 1].accepted != r.st[j].accepted
    ensures i < j && r.mv[i].t == r.mv[j].t && AtClient(r, i, r.mv[i].t, P28) && !exists q :: 0 <= q < i && Stops(r, q)
    ensures forall q :: i < q <= j ==> Offering(r, q, r.mv[j].t)
  {
    assert Moved(r, j);
    i := OfferBegins(r, n, m, j, r.mv[j].t);
    StoppedIff(r, n, m, i);
  }

  /** The destructor leaves its loop exactly when it finds the queue empty. */
  lemma DrainEndsIff(r: Log, n: nat, m: nat, i: nat)
    requires IsRun(r, n, m) && i < |r.mv| && AtClient(r, i, r.mv[i].t, X21)
    ensures AtClient(r, i + 1, r.mv[i].t, Free) <==> r.st[i].queue == []
    ensures r.st[i].queue != [] ==> AtClient(r, i + 1, r.mv[i].t, X22(r.st[i].queue[0]))
  {
    assert Moved(r, i);
  }

  // ----- how many workers

  /** The workers an add_threads has still to start. */
  function Wanted(pc: Pc): int {
    if pc.Client? && pc.k.A74? then pc.k.n else if pc.Client? && pc.k.A78? then pc.k.n else 0
  }

  /** The workers asked for by the add_threads that begin in the first `i` moves. */
  ghost function Requested(r: Log, i: nat): int
    requires |r.st| == |r.mv| + 1 && i < |r.st|
  {
    if i == 0 then 0
    else
      var asked := if r.mv[i - 1].c.AddThreads? && AtClient(r, i - 1, r.mv[i - 1].t, Free) then r.mv[i - 1].c.n else 0;
      Requested(r, i - 1) + asked
  }

  ghost predicate Staffed(r: Log, n: nat, m: nat, i: nat)
    requires |r.st| == |r.mv| + 1 && i < |r.st|
  {
    |r.st[i].pcs| + Total(r.st[i].pcs, Wanted) == n + m + Requested(r, i)
  }

  lemma StaffStep(r: Log, n: nat, m: nat, i: nat)
    requires IsRun(r, n, m) && i < |r.mv| && Staffed(r, n, m, i)
    ensures Staffed(r, n, m, i + 1)
  {
    assert Moved(r, i);
    var s, t, c := r.st[i], r.mv[i].t, r.mv[i].c;
    var pc', e := Micro(s, t, c).0, Micro(s, t, c).1;
    WantedStep(s, t, c);
    TotalUpdate(s.pcs, t, pc', Wanted);
    TotalAppend(s.pcs[t := pc'], Worker(W43), Wanted);
  }

  lemma StaffedInit(r: Log, n: nat, m: nat)
    requires IsRun(r, n, m)
    ensures Staffed(r, n, m, 0)
  {
    TotalUniform(Init(n, m).pcs, Wanted, 0);
  }

  lemma WantedStep(s: Pool, t: Tid, c: Choice)
    requires t < |s.pcs|
    ensures var (pc', e) := Micro(s, t, c);
      Wanted(pc') + (if e.Spawn? then 1 else 0) ==
      Wanted(s.pcs[t]) + (if c.AddThreads? && s.pcs[t] == Client(Free) then c.n else 0)
  {
  }

  /** In every state the threads are those of the construction and those that add_threads has started so far. */
  lemma EveryWorkerIsStarted(r: Log, n: nat, m: nat, i: nat)
    requires IsRun(r, n, m) && i < |r.st|
    ensures |r.st[i].pcs| == n + m + Requested(r, i) - Total(r.st[i].pcs, Wanted)
  {
    StaffedInit(r, n, m);
    for k := 0 to i
      invariant Staffed(r, n, m, k)
    {
      StaffStep(r, n, m, k);
    }
  }
}
