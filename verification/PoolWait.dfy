/** Liveness of `thpool_wait`. A finishing worker signals one waiter, so at most one caller can
    count on being woken; and a pool without workers, or one that is destroyed under a caller,
    wakes nobody. */

module PoolWait {
  import opened Conditions
  import opened ThreadPool
  import opened PoolSafety
  import opened PoolProgress

  /** Whoever sleeps in `thpool_wait`, or is about to, faces queued or running work, as long as
      the pool is not freed. */
  ghost predicate WaitersCovered(s: State) {
    !s.destroy.Freed? ==>
      forall x :: 0 <= x < |s.waiters| && (s.waiters[x].MustSleep? || s.waiters[x].Sleeping?) ==>
        s.queue != [] || s.working > 0
  }

  predicate FewWaiters(n: nat, m: nat) { m <= 1 || n == 0 }

  lemma WorkingIsPositive(workers: seq<Phase>, w: nat)
    requires w < |workers| && IsWorking(workers[w])
    ensures Total(WorkingMeter, workers) > 0
  {
    TotalExtremes(WorkingMeter, workers);
    assert Reading(WorkingMeter, workers[w]) == 1;
  }

  lemma WorkerKeepsCovered(s: State, w: nat, act: WorkerAct)
    requires Inv(s) && WaitersCovered(s) && FewWaiters(|s.workers|, |s.waiters|)
    requires WorkerEnabled(s, w, act)
    ensures WaitersCovered(StepWorker(s, w, act))
  {
    var t := StepWorker(s, w, act);
    if act.PullJob? {
      WorkingIsPositive(s.workers, w);
    } else if act.Uncount? {
      WorkingIsPositive(s.workers, w);
      if s.working == 1 && |s.waiters| == 1 && s.waiters[0].Sleeping? {
        assert 0 in SleepingWaiters(s.waiters);
        assert 0 in act.notified;
      }
    } else {
      assert t.queue == s.queue && t.waiters == s.waiters && t.destroy == s.destroy;
    }
  }

  lemma CoveredKept(s: State, l: Label)
    requires Inv(s) && WaitersCovered(s) && FewWaiters(|s.workers|, |s.waiters|) && Enabled(s, l)
    ensures WaitersCovered(Step(s, l))
  {
    match l
    case Worker(w, act) => WorkerKeepsCovered(s, w, act);
    case Waiter(x, act) => WaiterKeepsCovered(s, x, act);
    case _ =>
  }

  lemma WaiterKeepsCovered(s: State, x: nat, act: WaiterAct)
    requires Inv(s) && WaitersCovered(s) && WaiterEnabled(s, x, act)
    ensures WaitersCovered(StepWaiter(s, x, act))
  {
    TotalExtremes(WorkingMeter, s.workers);
  }

  lemma {:induction false} CoveredOverRuns(s: State, ls: seq<Label>)
    requires Inv(s) && WaitersCovered(s) && FewWaiters(|s.workers|, |s.waiters|) && ValidRun(s, ls)
    ensures WaitersCovered(Exec(s, ls))
    decreases |ls|
  {
    if ls != [] {
      CoveredKept(s, ls[0]);
      StepKeepsInv(s, ls[0]);
      CoveredOverRuns(Step(s, ls[0]), ls[1..]);
    }
  }

  // ---------- when callers return ----------

  predicate Inside(p: WaiterPhase) { !p.Outside? && !p.Returned? }

  predicate NobodyInside(s: State) {
    forall x :: 0 <= x < |s.waiters| ==> !Inside(s.waiters[x])
  }

  /** If the run calls `thpool_destroy`, it does so while nobody is inside `thpool_wait`. */
  predicate QuietDestroy(s: State, ls: seq<Label>)
    requires ValidRun(s, ls)
    decreases |ls|
  {
    ls != [] ==>
      && (ls[0] == Destroyer(DestroyCall) ==> NobodyInside(s))
      && QuietDestroy(Step(s, ls[0]), ls[1..])
  }

  /** Once `thpool_destroy` was called in this way, nobody ever enters `thpool_wait` again. */
  ghost predicate EmptyOnceDestroyed(s: State) { !s.keepalive ==> NobodyInside(s) }

  lemma StepKeepsEmpty(s: State, l: Label)
    requires FlagsOk(s) && Enabled(s, l) && EmptyOnceDestroyed(s)
    requires l == Destroyer(DestroyCall) ==> NobodyInside(s)
    ensures EmptyOnceDestroyed(Step(s, l))
  {
    match l
    case Worker(w, act) => WorkersOnlyNotify(s, w, act);
    case _ =>
  }

  lemma {:induction false} QuietRunKeepsEmpty(s: State, ls: seq<Label>)
    requires Inv(s) && ValidRun(s, ls) && QuietDestroy(s, ls) && EmptyOnceDestroyed(s)
    ensures EmptyOnceDestroyed(Exec(s, ls))
    decreases |ls|
  {
    if ls != [] {
      StepKeepsInv(s, ls[0]);
      StepKeepsEmpty(s, ls[0]);
      QuietRunKeepsEmpty(Step(s, ls[0]), ls[1..]);
    }
  }

  /** In a pool with workers a single caller of `thpool_wait` returns, provided nobody calls
      `thpool_destroy` over it: when the pool has settled it is not inside. */
  lemma SingleWaiterReturns(n: nat, ls: seq<Label>)
    requires n > 0 && ValidRun(Init(n, 1), ls) && QuietDestroy(Init(n, 1), ls)
    ensures var t := Exec(Init(n, 1), ls);
      Quiescent(t) ==> |t.waiters| == 1 && NobodyInside(t)
  {
    var i := Init(n, 1);
    InitInv(n, 1);
    RunKeepsInv(i, ls);
    RunKeepsSize(i, ls);
    CoveredOverRuns(i, ls);
    QuietRunKeepsEmpty(i, ls);
    var t := Exec(i, ls);
    if Quiescent(t) && t.keepalive {
      SettledShape(t);
      SettledIsDone(t);
    }
  }

  /** A run that never called `thpool_destroy` did not call it over anybody. */
  lemma {:induction false} NotCalledIsQuiet(s: State, ls: seq<Label>)
    requires ValidRun(s, ls) && Exec(s, ls).destroy.NotCalled?
    ensures s.destroy.NotCalled? && QuietDestroy(s, ls)
    decreases |ls|
  {
    if ls != [] {
      NotCalledIsQuiet(Step(s, ls[0]), ls[1..]);
    }
  }

  // ---------- two callers ----------

  function Started(n: nat, m: nat, k: nat): State
    requires k <= n
  {
    Init(n, m).(workers := seq(n, i => if i < k then LoopTest else Starting), alive := k)
  }

  lemma {:induction false} StartWorkers(n: nat, m: nat, k: nat) returns (ls: seq<Label>)
    requires k <= n
    ensures ValidRun(Init(n, m), ls) && Exec(Init(n, m), ls) == Started(n, m, k)
  {
    if k == 0 {
      ls := [];
      assert Started(n, m, 0) == Init(n, m);
    } else {
      ls := StartWorkers(n, m, k - 1);
      ls := Extend(Init(n, m), ls, Worker(k - 1, Start));
      assert Started(n, m, k - 1).workers[k - 1 := LoopTest] == Started(n, m, k).workers;
    }
  }

  lemma AddOneJob(s: State) returns (ls: seq<Label>)
    requires |s.late| == |s.workers| && !s.ready && s.alive == |s.workers|
    requires s.mutex.QueueFree? && s.queue == [] && s.destroy.NotCalled? && Asleep(s.workers) == {}
    ensures ValidRun(s, ls)
    ensures Exec(s, ls) == s.(ready := true, queue := [s.added], added := s.added + 1, bit := true)
  {
    ls := Extend(s, [], Client(InitDone));
    ls := Extend(s, ls, Client(AddLink));
    ls := Extend(s, ls, Client(AddPost({})));
    assert Wake(s.workers, {}) == s.workers;
  }

  lemma CallerFallsAsleep(s: State, x: nat) returns (ls: seq<Label>)
    requires |s.late| == |s.workers| && s.ready && s.destroy.NotCalled? && s.lock.CountFree?
    requires s.queue != [] && x < |s.waiters| && s.waiters[x].Outside?
    ensures ValidRun(s, ls) && Exec(s, ls) == s.(waiters := s.waiters[x := Sleeping])
  {
    ls := Extend(s, [], Waiter(x, WaitCall));
    ls := Extend(s, ls, Waiter(x, ReadLen));
    ls := Extend(s, ls, Waiter(x, WaitSleep));
    assert s.waiters[x := Entering][x := MustSleep][x := Sleeping] == s.waiters[x := Sleeping];
  }

  lemma OneWorkerTakesTheJob(s: State) returns (ls: seq<Label>)
    requires 0 < |s.workers| == |s.late| && s.workers[0] == LoopTest && s.keepalive && s.bit
    requires |s.queue| == 1 && s.lock.CountFree? && s.mutex.QueueFree? && s.working == 0
    ensures ValidRun(s, ls)
    ensures Exec(s, ls) == s.(workers := s.workers[0 := Running(s.queue[0])], queue := [],
                              bit := false, working := 1, pulled := s.pulled + 1)
  {
    ls := OneWorkerGetsThrough(s);
    ls := Extend(s, ls, Worker(0, Count));
    ls := Extend(s, ls, Worker(0, PullJob));
    assert s.workers[0 := Counting][0 := Pulling][0 := Running(s.queue[0])] == s.workers[0 := Running(s.queue[0])];
  }

  lemma OneWorkerGetsThrough(s: State) returns (ls: seq<Label>)
    requires 0 < |s.workers| == |s.late| && s.workers[0] == LoopTest && s.keepalive && s.bit
    ensures ValidRun(s, ls) && Exec(s, ls) == s.(workers := s.workers[0 := Counting], bit := false)
  {
    ls := Extend(s, [], Worker(0, Loop));
    ls := Extend(s, ls, Worker(0, SemTest));
    ls := Extend(s, ls, Worker(0, Keep));
    assert s.workers[0 := SemEnter][0 := KeepTest][0 := Counting] == s.workers[0 := Counting];
  }

  lemma OneWorkerFinishes(s: State, notified: set<nat>) returns (ls: seq<Label>)
    requires 0 < |s.workers| == |s.late| && s.workers[0].Running?
    requires s.lock.CountFree? && s.working == 1 && Signals(notified, SleepingWaiters(s.waiters))
    ensures ValidRun(s, ls)
    ensures Exec(s, ls) == s.(workers := s.workers[0 := LoopTest], working := 0,
                              finished := s.finished + {s.workers[0].job},
                              waiters := Notify(s.waiters, notified))
  {
    ls := Extend(s, [], Worker(0, RunJob));
    ls := Extend(s, ls, Worker(0, Uncount(notified)));
    assert s.workers[0 := Finishing][0 := LoopTest] == s.workers[0 := LoopTest];
  }

  /** Both callers of `thpool_wait` sleep while one job is queued. */
  lemma TwoCallersSleep(n: nat, m: nat) returns (ls: seq<Label>)
    requires n > 0 && m > 1
    ensures ValidRun(Init(n, m), ls)
    ensures var s := Started(n, m, n);
      Exec(Init(n, m), ls) == s.(ready := true, queue := [0], added := 1, bit := true,
                                 waiters := s.waiters[0 := Sleeping][1 := Sleeping])
  {
    var i := Init(n, m);
    ls := StartWorkers(n, m, n);
    var s := Exec(i, ls);
    var add := AddOneJob(s);
    RunsCompose(i, ls, add);
    ls, s := ls + add, Exec(s, add);
    var first := CallerFallsAsleep(s, 0);
    RunsCompose(i, ls, first);
    ls, s := ls + first, Exec(s, first);
    var second := CallerFallsAsleep(s, 1);
    RunsCompose(i, ls, second);
    ls := ls + second;
  }

  /** The second caller sleeps over an idle pool whose workers only go back to sleep. */
  ghost predicate Dormant(s: State) {
    && s.keepalive && s.queue == [] && !s.bit && s.mutex.QueueFree? && s.destroy.NotCalled?
    && (forall w :: 0 <= w < |s.workers| ==>
          var p := s.workers[w]; p.LoopTest? || p.SemEnter? || p.SemAsleep? || p.SemAwake?)
    && |s.waiters| > 1 && s.waiters[1].Sleeping?
  }

  lemma {:induction false} OwnRunKeepsDormant(s: State, ls: seq<Label>)
    requires Dormant(s) && ValidRun(s, ls) && OwnRun(ls)
    ensures Dormant(Exec(s, ls))
    decreases |ls|
  {
    if ls != [] {
      OwnStepKeepsDormant(s, ls[0]);
      OwnRunKeepsDormant(Step(s, ls[0]), ls[1..]);
    }
  }

  lemma OwnStepKeepsDormant(s: State, l: Label)
    requires Dormant(s) && Enabled(s, l) && OwnStep(l)
    ensures Dormant(Step(s, l))
  {
  }

  /** One job is done, one caller signalled, and all workers are back at their loop head. */
  lemma OneCallerIsSignalled(n: nat, m: nat) returns (ls: seq<Label>)
    requires n > 0 && m > 1
    ensures ValidRun(Init(n, m), ls) && Dormant(Exec(Init(n, m), ls))
  {
    var i := Init(n, m);
    ls := TwoCallersSleep(n, m);
    var s := Exec(i, ls);
    var take := OneWorkerTakesTheJob(s);
    RunsCompose(i, ls, take);
    ls, s := ls + take, Exec(s, take);
    assert 0 in SleepingWaiters(s.waiters);
    var finish := OneWorkerFinishes(s, {0});
    RunsCompose(i, ls, finish);
    ls := ls + finish;
  }

  /** Two callers wait for one job; the finishing worker signals only one of them, and when the
      pool has settled the other one still sleeps, with every job done. */
  lemma SecondWaiterIsForgotten(n: nat, m: nat) returns (ls: seq<Label>)
    requires n > 0 && m > 1
    ensures ValidRun(Init(n, m), ls) && QuietDestroy(Init(n, m), ls)
    ensures var t := Exec(Init(n, m), ls); Quiescent(t) && Dormant(t) && !WaitersCovered(t)
  {
    var i := Init(n, m);
    ls := OneCallerIsSignalled(n, m);
    InitInv(n, m);
    RunKeepsInv(i, ls);
    var own := DormantSettles(Exec(i, ls));
    RunsCompose(i, ls, own);
    ls := ls + own;
    NotCalledIsQuiet(i, ls);
  }

  lemma DormantSettles(s: State) returns (own: seq<Label>)
    requires Inv(s) && Dormant(s)
    ensures ValidRun(s, own)
    ensures var t := Exec(s, own); Quiescent(t) && Dormant(t) && !WaitersCovered(t)
  {
    own := SomeOwnRunSettles(s);
    OwnRunKeepsDormant(s, own);
    RunKeepsInv(s, own);
    DormantIsUncovered(Exec(s, own));
  }

  lemma DormantIsUncovered(s: State)
    requires Dormant(s) && CountersOk(s)
    ensures !WaitersCovered(s)
  {
    TotalExtremes(WorkingMeter, s.workers);
    assert s.waiters[1].Sleeping?;
  }

  /** A job added to a pool without workers is never taken, and a caller sleeps over it. */
  lemma NobodyServes(m: nat) returns (ls: seq<Label>)
    requires m > 0
    ensures ValidRun(Init(0, m), ls) && QuietDestroy(Init(0, m), ls)
    ensures var t := Exec(Init(0, m), ls); Quiescent(t) && |t.waiters| > 0 && Inside(t.waiters[0])
  {
    var i := Init(0, m);
    ls := AddOneJob(i);
    var s := Exec(i, ls);
    var sleep := CallerFallsAsleep(s, 0);
    RunsCompose(i, ls, sleep);
    ls := ls + sleep;
    NotCalledIsQuiet(i, ls);
  }

  /** When the pool has settled, whoever called `thpool_wait` has returned. */
  ghost predicate CallersReturn(s: State) { Quiescent(s) ==> NobodyInside(s) }

  /** Exactly when every caller of `thpool_wait` returns, in all runs that do not destroy the
      pool over a caller: nobody calls it, or one caller at a time and there is a worker. */
  lemma CallersReturnExactlyWhen(n: nat, m: nat)
    ensures (forall ls :: ValidRun(Init(n, m), ls) && QuietDestroy(Init(n, m), ls) ==>
               CallersReturn(Exec(Init(n, m), ls)))
            <==> m == 0 || (m == 1 && n > 0)
  {
    var i := Init(n, m);
    if m == 0 || (m == 1 && n > 0) {
      forall ls | ValidRun(i, ls) && QuietDestroy(i, ls)
        ensures CallersReturn(Exec(i, ls))
      {
        RunKeepsSize(i, ls);
        if m == 1 { SingleWaiterReturns(n, ls); }
      }
    } else if n == 0 {
      var ls := NobodyServes(m);
      assert !CallersReturn(Exec(i, ls));
    } else {
      var ls := SecondWaiterIsForgotten(n, m);
      assert Inside(Exec(i, ls).waiters[1]);
      assert !CallersReturn(Exec(i, ls));
    }
  }

  /** Exactly when the queued-or-running invariant holds for all callers: at most one of them,
      or no worker at all, in which case a queued job stays queued. */
  lemma WaitersAreCoveredExactlyWhen(n: nat, m: nat)
    ensures (forall ls :: ValidRun(Init(n, m), ls) ==> WaitersCovered(Exec(Init(n, m), ls)))
            <==> FewWaiters(n, m)
  {
    if FewWaiters(n, m) {
      forall ls | ValidRun(Init(n, m), ls) ensures WaitersCovered(Exec(Init(n, m), ls)) {
        InitInv(n, m);
        CoveredOverRuns(Init(n, m), ls);
      }
    } else {
      var ls := SecondWaiterIsForgotten(n, m);
    }
  }
}
