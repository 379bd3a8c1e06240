/** What holds over every run of the thread pool. */
module PoolTheorems {
  import opened ThreadPool
  import opened PoolInvariant
  import opened Sums
  import opened Pigeonhole

  lemma InvStep(r: Log, n: nat, m: nat, i: nat)
    requires IsRun(r, n, m) && i < |r.mv| && Inv(r.st[i])
    ensures Inv(r.st[i + 1])
  {
    assert Moved(r, i);
    StepKeepsInv(r.st[i], r.mv[i].t, r.mv[i].c);
  }

  lemma InvAt(r: Log, n: nat, m: nat, i: nat)
    requires IsRun(r, n, m) && i < |r.st|
    ensures Inv(r.st[i])
  {
    InitInv(n, m);
    for k := 0 to i
      invariant Inv(r.st[k])
    {
      InvStep(r, n, m, k);
    }
  }

  // ----- active_threads_

  /**
  `active_threads_` is the number of workers past line 43 that have not left, so whoever is about to
  decrement it finds it positive.
  */
  lemma ActiveIsExact(r: Log, n: nat, m: nat, i: nat, t: Tid)
    requires IsRun(r, n, m) && i < |r.st| && |r.st[i].pcs| < SIZE && t < |r.st[i].pcs|
    ensures r.st[i].active == Total(r.st[i].pcs, Counted)
    ensures Counted(r.st[i].pcs[t]) == 1 ==> r.st[i].active >= 1
  {
    InvAt(r, n, m, i);
    CountedAtMost(r.st[i].pcs);
    TotalNonNegative(r.st[i].pcs, Counted);
    TotalAtLeast(r.st[i].pcs, t, Counted);
  }

  lemma {:induction false} CountedAtMost(pcs: seq<Pc>)
    ensures Total(pcs, Counted) <= |pcs|
  {
    if |pcs| > 0 {
      CountedAtMost(pcs[..|pcs| - 1]);
    }
  }

  // ----- tasks

  /** How often task `p` occurs in the queue, in a thread's hand, among the executed and among the drained. */
  ghost function Places(s: Pool, p: Id): nat {
    multiset(s.queue)[p] + Bag(s.pcs, InHand)[p] + multiset(s.executed)[p] + multiset(s.drained)[p]
  }

  /** Every accepted task is in exactly one place, no other task is anywhere, and no task is started twice. */
  lemma OnePlace(r: Log, n: nat, m: nat, i: nat, p: Id)
    requires IsRun(r, n, m) && i < |r.st|
    ensures Places(r.st[i], p) == if p in r.st[i].accepted then 1 else 0
    ensures Distinct(r.st[i].started) && (p in r.st[i].started ==> p in r.st[i].accepted)
  {
    InvAt(r, n, m, i);
    var s := r.st[i];
    PlacesAreAcceptance(s, p);
    forall q ensures multiset(s.started)[q] <= 1 {
      PlacesAreAcceptance(s, q);
      RunningInHand(s.pcs, q);
    }
    DistinctIffOnce(s.started);
    RunningInHand(s.pcs, p);
    if p in s.started {
      assert p in multiset(s.started);
    }
  }

  lemma PlacesAreAcceptance(s: Pool, p: Id)
    requires Inv(s)
    ensures Places(s, p) == multiset(s.accepted)[p] == if p in s.accepted then 1 else 0
  {
    DistinctIffOnce(s.accepted);
    assert multiset(s.accepted) == multiset(s.popped) + multiset(s.queue);
    assert p in s.accepted <==> p in multiset(s.accepted);
  }

  lemma {:induction false} RunningInHand(pcs: seq<Pc>, p: Id)
    ensures Bag(pcs, Running)[p] <= Bag(pcs, InHand)[p]
  {
    if |pcs| > 0 {
      RunningInHand(pcs[..|pcs| - 1], p);
    }
  }

  // ----- leftover_

  /** When no thread is between a push or a pop and its counter update, `leftover_` is the number of queued tasks. */
  lemma LeftoverAtRest(r: Log, n: nat, m: nat, i: nat)
    requires IsRun(r, n, m) && i < |r.st| && |r.st[i].queue| < SIZE
    requires forall t :: 0 <= t < |r.st[i].pcs| ==> Owes(r.st[i].pcs[t]) == 0 && Uncounted(r.st[i].pcs[t]) == 0
    ensures r.st[i].leftover == |r.st[i].queue|
  {
    InvAt(r, n, m, i);
    TotalUniform(r.st[i].pcs, Owes, 0);
    TotalUniform(r.st[i].pcs, Uncounted, 0);
  }

  /**
  In every state `leftover_` is, modulo its width, the queued tasks plus those popped and not yet
  subtracted, minus those pushed and not yet added.
  */
  lemma LeftoverInGeneral(r: Log, n: nat, m: nat, i: nat)
    requires IsRun(r, n, m) && i < |r.st|
    ensures r.st[i].leftover ==
            Wrap(|r.st[i].queue| + Total(r.st[i].pcs, Owes) - Total(r.st[i].pcs, Uncounted))
  {
    InvAt(r, n, m, i);
  }

  // ----- one worker

  /** `a` is obtained from `b` by leaving out elements. */
  ghost predicate Subsequence(a: seq<Id>, b: seq<Id>) {
    if b == [] then a == []
    else
      var b' := b[..|b| - 1];
      Subsequence(a, b') || (a != [] && a[|a| - 1] == b[|b| - 1] && Subsequence(a[..|a| - 1], b'))
  }

  lemma SubsequenceExtend(a: seq<Id>, b: seq<Id>, x: Id)
    requires Subsequence(a, b)
    ensures Subsequence(a, b + [x]) && Subsequence(a + [x], b + [x])
  {
    assert (b + [x])[..|b|] == b && (a + [x])[..|a|] == a;
  }

  lemma {:induction false} SubsequenceAppend(a: seq<Id>, b: seq<Id>, c: seq<Id>)
    requires Subsequence(a, b)
    ensures Subsequence(a, b + c)
  {
    if c == [] {
      assert b + c == b;
    } else {
      var c' := c[..|c| - 1];
      SubsequenceAppend(a, b, c');
      SubsequenceExtend(a, b + c', c[|c| - 1]);
      assert b + c == (b + c') + [c[|c| - 1]];
    }
  }

  lemma {:induction false} SubsequenceFront(a: seq<Id>, x: Id, b: seq<Id>)
    requires Subsequence(a + [x], b)
    ensures Subsequence(a, b)
  {
    if b != [] {
      assert (a + [x])[..|a|] == a;
      if Subsequence(a + [x], b[..|b| - 1]) {
        SubsequenceFront(a, x, b[..|b| - 1]);
      }
    }
  }

  /** The tasks the only worker has started, and the one it is about to start. */
  function Taken(s: Pool): seq<Id>
    requires |s.pcs| > 0
  {
    s.started + if s.pcs[0].Worker? && s.pcs[0].w.W49? then [s.pcs[0].w.p] else []
  }

  ghost predicate NoDrain(s: Pool) {
    s.drained == [] && forall t :: 0 <= t < |s.pcs| ==> !(s.pcs[t].Client? && s.pcs[t].k.X22?)
  }

  ghost predicate OneWorker(s: Pool) {
    && |s.pcs| > 0
    && s.pcs[0].Worker?
    && (forall t :: 1 <= t < |s.pcs| ==> s.pcs[t].Client?)
    && Subsequence(Taken(s), s.popped)
    && (NoDrain(s) ==> s.popped == Taken(s))
  }

  /** What a worker's step does to its hand and to the history. */
  ghost predicate WorkerTakes(s: Pool, w: WorkerPc, w': WorkerPc, e: Effect) {
    && !e.Push? && !e.Drain? && !e.Spawn?
    && (e.Pop? ==> s.queue != [] && !w.W49? && w' == W49(s.queue[0]))
    && (e.Start? ==> w == W49(e.p) && !w'.W49?)
    && (!e.Pop? && !e.Start? ==> !w.W49? && !w'.W49?)
  }

  ghost predicate ClientTakes(s: Pool, k: ClientPc, k': ClientPc, e: Effect) {
    && !e.Start? && !e.Finish?
    && (e.Pop? ==> s.queue != [] && k'.X22?)
    && (e.Drain? <==> k.X22?)
  }

  lemma WorkerHistory(s: Pool, w: WorkerPc, fail: bool)
    ensures var (w', e) := StepWorker(s, w, fail); WorkerTakes(s, w, w', e)
  {
  }

  lemma ClientHistory(s: Pool, k: ClientPc, c: Choice)
    ensures var (k', e) := StepClient(s, k, c); ClientTakes(s, k, k', e)
  {
  }

  lemma OneWorkerMoves(s: Pool, w': WorkerPc, e: Effect)
    requires OneWorker(s) && WorkerTakes(s, s.pcs[0].w, w', e)
    ensures OneWorker(Moving(s, 0, Worker(w'), e))
  {
    var s' := Moving(s, 0, Worker(w'), e);
    assert forall t :: 1 <= t < |s.pcs| ==> s'.pcs[t] == s.pcs[t];
    if e.Pop? {
      assert Taken(s) == s.started;
      SubsequenceExtend(s.started, s.popped, s.queue[0]);
    } else {
      assert Taken(s') == Taken(s) && s'.popped == s.popped;
    }
    assert NoDrain(s') ==> NoDrain(s);
  }

  lemma ClientMoves(s: Pool, t: Tid, k': ClientPc, e: Effect)
    requires OneWorker(s) && 0 < t < |s.pcs| && ClientTakes(s, s.pcs[t].k, k', e) && !e.Spawn?
    ensures OneWorker(Moving(s, t, Client(k'), e))
  {
    var s' := Moving(s, t, Client(k'), e);
    assert s'.pcs[t] == Client(k') && forall u :: 0 <= u < |s.pcs| && u != t ==> s'.pcs[u] == s.pcs[u];
    assert Taken(s') == Taken(s);
    if e.Pop? {
      SubsequenceExtend(Taken(s), s.popped, s.queue[0]);
    }
    assert NoDrain(s') ==> NoDrain(s) && !e.Pop?;
  }

  lemma OneWorkerStep(r: Log, m: nat, i: nat)
    requires IsRun(r, 1, m) && i < |r.mv| && |r.st[i + 1].pcs| == |r.st[i].pcs| && OneWorker(r.st[i])
    ensures OneWorker(r.st[i + 1])
  {
    assert Moved(r, i);
    var s, t, c := r.st[i], r.mv[i].t, r.mv[i].c;
    var pc', e := Micro(s, t, c).0, Micro(s, t, c).1;
    if t == 0 {
      WorkerHistory(s, s.pcs[0].w, c.Fail?);
      OneWorkerMoves(s, pc'.w, e);
    } else {
      ClientHistory(s, s.pcs[t].k, c);
      ClientMoves(s, t, pc'.k, e);
    }
  }

  lemma InitOneWorker(m: nat)
    ensures OneWorker(Init(1, m))
  {
  }

  lemma OneWorkerAt(r: Log, m: nat, i: nat)
    requires IsRun(r, 1, m) && i < |r.st|
    requires forall k :: 0 <= k < |r.st| ==> |r.st[k].pcs| == 1 + m
    ensures OneWorker(r.st[i])
  {
    InitOneWorker(m);
    for k := 0 to i
      invariant OneWorker(r.st[k])
    {
      OneWorkerStep(r, m, k);
    }
  }

  /**
  With one worker and none added, tasks start in the order they were accepted: the started tasks are a
  subsequence of the accepted ones, and a prefix as long as no destructor has taken a task.
  */
  lemma OneWorkerInOrder(r: Log, m: nat, i: nat)
    requires IsRun(r, 1, m) && i < |r.st|
    requires forall k :: 0 <= k < |r.st| ==> |r.st[k].pcs| == 1 + m
    ensures Subsequence(r.st[i].started, r.st[i].accepted)
    ensures NoDrain(r.st[i]) ==> r.st[i].started <= r.st[i].accepted
  {
    OneWorkerAt(r, m, i);
    InvAt(r, 1, m, i);
    var s := r.st[i];
    if Taken(s) != s.started {
      SubsequenceFront(s.started, s.pcs[0].w.p, s.popped);
    } else {
      assert Taken(s) == s.started;
    }
    SubsequenceAppend(s.started, s.popped, s.queue);
  }

  // ----- leaving

  /** What workers that decided to leave, and clients about to store a target, know about the target. */
  ghost predicate Aware(s: Pool, pc: Pc) {
    && (pc.Worker? && pc.w.W60? ==> pc.w.cur > pc.w.tg >= s.target)
    && (pc.Client? && pc.k.M87? ==> pc.k.x <= s.target)
  }

  ghost predicate AllAware(s: Pool) {
    forall t :: 0 <= t < |s.pcs| ==> Aware(s, s.pcs[t])
  }

  predicate Removing(pc: Pc) {
    pc.Client? && pc.k.M87?
  }

  ghost predicate NoAdd(s: Pool) {
    forall t :: 0 <= t < |s.pcs| ==> !(s.pcs[t].Client? && s.pcs[t].k.A74?)
  }

  ghost predicate NeverAdds(r: Log) {
    forall k :: 0 <= k < |r.st| ==> NoAdd(r.st[k])
  }

  /** No add_threads is under way and at most one remove_threads is between its load and its store. */
  ghost predicate Quiet(s: Pool) {
    && NoAdd(s)
    && (forall t, u :: 0 <= t < u < |s.pcs| ==> !(Removing(s.pcs[t]) && Removing(s.pcs[u])))
  }

  lemma ActorAware(s: Pool, t: Tid, c: Choice)
    requires t < |s.pcs| && Aware(s, s.pcs[t]) && !(s.pcs[t].Client? && s.pcs[t].k.A74?)
    ensures Aware(Step(s, t, c), Micro(s, t, c).0)
    ensures Step(s, t, c).target <= s.target && (Step(s, t, c).target != s.target ==> Removing(s.pcs[t]))
  {
  }

  lemma AwareStep(s: Pool, t: Tid, c: Choice)
    requires AllAware(s) && Quiet(s) && t < |s.pcs|
    ensures AllAware(Step(s, t, c))
  {
    var s' := Step(s, t, c);
    ActorAware(s, t, c);
    forall u | 0 <= u < |s'.pcs| ensures Aware(s', s'.pcs[u]) {
      if u < |s.pcs| && u != t {
        assert s'.pcs[u] == s.pcs[u] && Aware(s, s.pcs[u]);
        assert if t < u then !(Removing(s.pcs[t]) && Removing(s.pcs[u]))
               else !(Removing(s.pcs[u]) && Removing(s.pcs[t]));
      }
    }
  }

  lemma AwareAt(r: Log, n: nat, m: nat, i: nat)
    requires IsRun(r, n, m) && i < |r.st| && forall k :: 0 <= k < i ==> Quiet(r.st[k])
    ensures AllAware(r.st[i])
  {
    assert AllAware(Init(n, m));
    for k := 0 to i
      invariant AllAware(r.st[k])
    {
      assert Moved(r, k);
      AwareStep(r.st[k], r.mv[k].t, r.mv[k].c);
    }
  }

  /** The compare-exchange of line 60 succeeds in move `i`. */
  ghost predicate Leaves(r: Log, i: nat)
    requires |r.st| == |r.mv| + 1 && i < |r.mv|
  {
    var s, t := r.st[i], r.mv[i].t;
    t < |s.pcs| && s.pcs[t].Worker? && s.pcs[t].w.W60? && s.active == s.pcs[t].w.cur && s.active > 0
  }

  /**
  As long as add_threads has not been called and calls of remove_threads have not overlapped, no
  worker leaves the pool below its target.
  */
  lemma NoExitBelowTarget(r: Log, n: nat, m: nat, i: nat)
    requires IsRun(r, n, m) && i < |r.mv| && Leaves(r, i) && forall k :: 0 <= k < i ==> Quiet(r.st[k])
    ensures r.st[i + 1].active == r.st[i].active - 1 && r.st[i + 1].active >= r.st[i + 1].target
  {
    AwareAt(r, n, m, i);
    assert Moved(r, i);
    assert Aware(r.st[i], r.st[i].pcs[r.mv[i].t]);
  }

  // ----- who makes a worker leave below the target

  ghost predicate At(r: Log, k: nat, u: Tid, pc: Pc) {
    k < |r.st| && u < |r.st[k].pcs| && r.st[k].pcs[u] == pc
  }

  /** Move `l` is the one by which thread `u` came to `pc`, where it still is in state `k`. */
  ghost predicate Came(r: Log, l: nat, k: nat, u: Tid, pc: Pc) {
    && l < k < |r.st| && l < |r.mv| && r.mv[l].t == u
    && forall q :: l < q <= k ==> At(r, q, u, pc)
  }

  lemma {:induction false} LastMove(r: Log, n: nat, m: nat, k: nat, u: Tid, pc: Pc) returns (l: nat)
    requires IsRun(r, n, m) && At(r, k, u, pc) && pc != Worker(W43) && pc != Client(Free)
    ensures Came(r, l, k, u, pc)
    decreases k
  {
    if k > 0 {
      assert Moved(r, k - 1);
      l := k - 1;
      if r.mv[k - 1].t != u {
        assert At(r, k - 1, u, pc);
        l := LastMove(r, n, m, k - 1, u, pc);
      }
    }
  }

  /** Move `j` is line 59 of the worker that leaves in move `i`: it found more than `target` threads. */
  ghost predicate Decides(r: Log, j: nat, i: nat)
    requires |r.st| == |r.mv| + 1 && i < |r.mv| && Leaves(r, i)
  {
    var t, w := r.mv[i].t, r.st[i].pcs[r.mv[i].t].w;
    && Came(r, j, i, t, Worker(w)) && At(r, j, t, Worker(W59(w.cur)))
    && r.st[j].target == r.st[j + 1].target == w.tg < w.cur
  }

  lemma LeavesAfterDeciding(r: Log, n: nat, m: nat, i: nat) returns (j: nat)
    requires IsRun(r, n, m) && i < |r.mv| && Leaves(r, i)
    ensures Decides(r, j, i)
  {
    var t := r.mv[i].t;
    j := LastMove(r, n, m, i, t, r.st[i].pcs[t]);
    assert Moved(r, j) && At(r, j + 1, t, r.st[i].pcs[t]);
  }

  /** Move `k` lifts the target from below `cur` to at least `cur`, where it stays up to state `i`. */
  ghost predicate Raises(r: Log, cur: nat, k: nat, i: nat) {
    && k < i < |r.st| && r.st[k].target < cur
    && forall q :: k < q <= i ==> r.st[q].target >= cur
  }

  lemma {:induction false} LastRaise(r: Log, cur: nat, j: nat, i: nat) returns (k: nat)
    requires j < i < |r.st| && r.st[j].target < cur <= r.st[i].target
    ensures j <= k < i && Raises(r, cur, k, i)
    decreases i
  {
    k := i - 1;
    if r.st[k].target >= cur {
      k := LastRaise(r, cur, j, k);
    }
  }

  /**
  In any run a worker leaves the pool below its target exactly when, between its line 59 and its line 60,
  some move lifts the target to the number of threads that the worker counted, and no move takes it below
  that number again.
  */
  lemma ExitBelowTargetIff(r: Log, n: nat, m: nat, j: nat, i: nat)
    requires IsRun(r, n, m) && i < |r.mv| && Leaves(r, i) && Decides(r, j, i)
    ensures r.st[i + 1].active < r.st[i + 1].target <==>
            exists k :: j < k < i && Raises(r, r.st[i].pcs[r.mv[i].t].w.cur, k, i)
  {
    assert Moved(r, i);
    var cur := r.st[i].pcs[r.mv[i].t].w.cur;
    if r.st[i].target >= cur {
      assert j + 1 != i;
      var k := LastRaise(r, cur, j + 1, i);
    }
  }

  /** Only add_threads and remove_threads write the target, and remove_threads writes what it has computed. */
  lemma TargetWriter(r: Log, n: nat, m: nat, k: nat)
    requires IsRun(r, n, m) && k < |r.mv| && r.st[k + 1].target != r.st[k].target
    ensures var u := r.mv[k].t;
      && u < |r.st[k].pcs| && r.st[k].pcs[u].Client?
      && (r.st[k].pcs[u].k.A74? || (r.st[k].pcs[u].k.M87? && r.st[k + 1].target == r.st[k].pcs[u].k.x))
  {
    assert Moved(r, k);
  }

  /**
  Two overlapping calls of remove_threads: the call of client `u` loads the target in move `l` and stores
  what it computed in move `k`, and in between, in move `w`, another call stores a smaller target.
  */
  ghost predicate Overlap(r: Log, u: Tid, l: nat, w: nat, k: nat) {
    && l < w < k < |r.mv| && |r.st| == |r.mv| + 1
    && r.mv[l].t == r.mv[k].t == u && u < |r.st[l].pcs| && u < |r.st[k].pcs|
    && r.st[l].pcs[u].Client? && r.st[l].pcs[u].k.M84?
    && Removing(r.st[k].pcs[u]) && Came(r, l, k, u, r.st[k].pcs[u]) && r.st[k].pcs[u].k.x <= r.st[l].target
    && r.mv[w].t != u && r.mv[w].t < |r.st[w].pcs| && Removing(r.st[w].pcs[r.mv[w].t])
    && r.st[w + 1].target < r.st[w].target
  }

  /** Without add_threads the target rises only in the second of two overlapping calls of remove_threads. */
  lemma RaiseNeedsOverlap(r: Log, n: nat, m: nat, k: nat) returns (l: nat, w: nat)
    requires IsRun(r, n, m) && NeverAdds(r) && k < |r.mv| && r.st[k].target < r.st[k + 1].target
    ensures Overlap(r, r.mv[k].t, l, w, k)
  {
    var u := r.mv[k].t;
    TargetWriter(r, n, m, k);
    assert NoAdd(r.st[k]);
    var pc := r.st[k].pcs[u];
    l := LastMove(r, n, m, k, u, pc);
    assert Moved(r, l) && At(r, l + 1, u, pc);
    w := FirstFall(r, pc.k.x, l + 1, k);
    TargetWriter(r, n, m, w);
    assert NoAdd(r.st[w]);
    assert Moved(r, w) && At(r, w, u, pc) && At(r, w + 1, u, pc);
  }

  lemma {:induction false} FirstFall(r: Log, x: nat, l: nat, k: nat) returns (w: nat)
    requires l <= k < |r.st| && r.st[k].target < x <= r.st[l].target
    ensures l <= w < k && r.st[w + 1].target < r.st[w].target
    decreases k
  {
    w := k - 1;
    if r.st[w].target < x {
      w := FirstFall(r, x, l, w);
    }
  }

  /** The overlap of `l`, `w`, `k` lifts the target to `cur` or more after move `j`; it stays there up to `i`. */
  ghost predicate RaisingOverlap(r: Log, cur: nat, j: nat, i: nat, l: nat, w: nat, k: nat) {
    j < k < i && Raises(r, cur, k, i) && k < |r.mv| && Overlap(r, r.mv[k].t, l, w, k)
  }

  /**
  In a run without add_threads a worker leaves the pool below its target exactly when two calls of
  remove_threads overlapped, the later store came between the worker's lines 59 and 60, and it lifted the
  target for good to the number of threads that the worker counted.
  */
  lemma ExitBelowTargetIffOverlap(r: Log, n: nat, m: nat, j: nat, i: nat)
    requires IsRun(r, n, m) && NeverAdds(r) && i < |r.mv| && Leaves(r, i) && Decides(r, j, i)
    ensures r.st[i + 1].active < r.st[i + 1].target <==>
            exists l, w, k :: RaisingOverlap(r, r.st[i].pcs[r.mv[i].t].w.cur, j, i, l, w, k)
  {
    var cur := r.st[i].pcs[r.mv[i].t].w.cur;
    ExitBelowTargetIff(r, n, m, j, i);
    if r.st[i + 1].active < r.st[i + 1].target {
      var k :| j < k < i && Raises(r, cur, k, i);
      var l, w := RaiseNeedsOverlap(r, n, m, k);
      assert RaisingOverlap(r, cur, j, i, l, w, k);
    }
  }

  /** A pool with one worker and two clients and no task. */
  function Trio(active: nat, target: nat, w: WorkerPc, k1: ClientPc, k2: ClientPc): Pool {
    Pool([], false, active, target, 0, 0, [], [], [], [], [], [Worker(w), Client(k1), Client(k2)])
  }

  lemma TrioWorker(active: nat, target: nat, w: WorkerPc, k1: ClientPc, k2: ClientPc, c: Choice)
    ensures var s := Trio(active, target, w, k1, k2); var (w', e) := StepWorker(s, w, c.Fail?);
      Step(s, 0, c) == Apply(Trio(active, target, w', k1, k2), e)
  {
    var w' := StepWorker(Trio(active, target, w, k1, k2), w, c.Fail?).0;
    assert [Worker(w), Client(k1), Client(k2)][0 := Worker(w')] == [Worker(w'), Client(k1), Client(k2)];
  }

  lemma TrioFirst(active: nat, target: nat, w: WorkerPc, k1: ClientPc, k2: ClientPc, c: Choice)
    ensures var s := Trio(active, target, w, k1, k2); var (k', e) := StepClient(s, k1, c);
      Step(s, 1, c) == Apply(Trio(active, target, w, k', k2), e)
  {
    var k' := StepClient(Trio(active, target, w, k1, k2), k1, c).0;
    assert [Worker(w), Client(k1), Client(k2)][1 := Client(k')] == [Worker(w), Client(k'), Client(k2)];
  }

  lemma TrioSecond(active: nat, target: nat, w: WorkerPc, k1: ClientPc, k2: ClientPc, c: Choice)
    ensures var s := Trio(active, target, w, k1, k2); var (k', e) := StepClient(s, k2, c);
      Step(s, 2, c) == Apply(Trio(active, target, w, k1, k'), e)
  {
    var k' := StepClient(Trio(active, target, w, k1, k2), k2, c).0;
    assert [Worker(w), Client(k1), Client(k2)][2 := Client(k')] == [Worker(w), Client(k1), Client(k')];
  }

  /** A run without add_threads that ends in `s`. */
  ghost predicate Reaches(r: Log, s: Pool) {
    IsRun(r, 1, 2) && r.st[|r.mv|] == s && NeverAdds(r)
  }

  lemma Extend(r: Log, s: Pool, t: Tid, c: Choice, s': Pool) returns (r': Log)
    requires Reaches(r, s) && t < |s.pcs| && Step(s, t, c) == s' && NoAdd(s')
    ensures Reaches(r', s') && |r'.mv| == |r.mv| + 1 && r'.mv[|r.mv|] == Move(t, c) && r'.st[|r.mv|] == s
  {
    r' := Log(r.st + [s'], r.mv + [Move(t, c)]);
    forall i | 0 <= i < |r'.mv| ensures Moved(r', i) {
      assert i < |r.mv| ==> Moved(r, i);
    }
  }

  lemma RaceStarts() returns (r: Log)
    ensures Reaches(r, Trio(0, 1, W43, Free, Free))
  {
    r := Log([Init(1, 2)], []);
    assert Init(1, 2).pcs == [Worker(W43), Client(Free), Client(Free)];
  }

  /** One remove_threads(0) has read the target 1 when a remove_threads(1) lowers it to 0. */
  lemma RaceOpens() returns (r: Log)
    ensures Reaches(r, Trio(1, 0, W45, Free, M87(1)))
  {
    r := RaceStarts();
    TrioWorker(0, 1, W43, Free, Free, Proceed);
    r := Extend(r, Trio(0, 1, W43, Free, Free), 0, Proceed, Trio(1, 1, W45, Free, Free));
    TrioSecond(1, 1, W45, Free, Free, RemoveThreads(0));
    r := Extend(r, Trio(1, 1, W45, Free, Free), 2, RemoveThreads(0), Trio(1, 1, W45, Free, M84(0)));
    TrioSecond(1, 1, W45, Free, M84(0), Proceed);
    r := Extend(r, Trio(1, 1, W45, Free, M84(0)), 2, Proceed, Trio(1, 1, W45, Free, M87(1)));
    TrioFirst(1, 1, W45, Free, M87(1), RemoveThreads(1));
    r := Extend(r, Trio(1, 1, W45, Free, M87(1)), 1, RemoveThreads(1), Trio(1, 1, W45, M84(1), M87(1)));
    TrioFirst(1, 1, W45, M84(1), M87(1), Proceed);
    r := Extend(r, Trio(1, 1, W45, M84(1), M87(1)), 1, Proceed, Trio(1, 1, W45, M87(0), M87(1)));
    TrioFirst(1, 1, W45, M87(0), M87(1), Proceed);
    r := Extend(r, Trio(1, 1, W45, M87(0), M87(1)), 1, Proceed, Trio(1, 0, W45, Free, M87(1)));
  }

  /** The worker sees one thread too many and is about to leave. */
  lemma WorkerDecides(r0: Log) returns (r: Log)
    requires Reaches(r0, Trio(1, 0, W45, Free, M87(1)))
    ensures Reaches(r, Trio(1, 0, W60(1, 0), Free, M87(1)))
  {
    TrioWorker(1, 0, W45, Free, M87(1), Proceed);
    r := Extend(r0, Trio(1, 0, W45, Free, M87(1)), 0, Proceed, Trio(1, 0, W47, Free, M87(1)));
    TrioWorker(1, 0, W47, Free, M87(1), Fail);
    r := Extend(r, Trio(1, 0, W47, Free, M87(1)), 0, Fail, Trio(1, 0, W55, Free, M87(1)));
    TrioWorker(1, 0, W55, Free, M87(1), Proceed);
    r := Extend(r, Trio(1, 0, W55, Free, M87(1)), 0, Proceed, Trio(1, 0, W56(1), Free, M87(1)));
    TrioWorker(1, 0, W56(1), Free, M87(1), Proceed);
    r := Extend(r, Trio(1, 0, W56(1), Free, M87(1)), 0, Proceed, Trio(1, 0, W58, Free, M87(1)));
    TrioWorker(1, 0, W58, Free, M87(1), Proceed);
    r := Extend(r, Trio(1, 0, W58, Free, M87(1)), 0, Proceed, Trio(1, 0, W59(1), Free, M87(1)));
    TrioWorker(1, 0, W59(1), Free, M87(1), Proceed);
    r := Extend(r, Trio(1, 0, W59(1), Free, M87(1)), 0, Proceed, Trio(1, 0, W60(1, 0), Free, M87(1)));
  }

  /**
  Two overlapping calls of remove_threads can raise the target again, and then a worker leaves the pool
  below it although add_threads was never called.
  */
  lemma OverlappingRemovals() returns (r: Log, i: nat)
    ensures IsRun(r, 1, 2) && NeverAdds(r)
    ensures i < |r.mv| && Leaves(r, i) && r.st[i + 1].active < r.st[i + 1].target
  {
    r := RaceOpens();
    r := WorkerDecides(r);
    TrioSecond(1, 0, W60(1, 0), Free, M87(1), Proceed);
    r := Extend(r, Trio(1, 0, W60(1, 0), Free, M87(1)), 2, Proceed, Trio(1, 1, W60(1, 0), Free, Free));
    i := |r.mv|;
    TrioWorker(1, 1, W60(1, 0), Free, Free, Proceed);
    r := Extend(r, Trio(1, 1, W60(1, 0), Free, Free), 0, Proceed, Trio(0, 1, Gone, Free, Free));
  }
}
