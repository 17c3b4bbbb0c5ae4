/** What remains possible once `thpool_destroy` has freed the pool. It does not look whether
    anybody is inside `thpool_wait`; the callers have to see to that. */

module PoolDisposal {
  import opened ThreadPool
  import opened PoolSafety
  import opened PoolProgress
  import opened PoolWait

  /** Once the pool is freed no thread has a step left that would touch it. */
  ghost predicate FreedIsUntouched(s: State) {
    s.destroy.Freed? ==> forall l :: !Enabled(s, l)
  }

  /** If nobody is inside `thpool_wait` when `thpool_destroy` is called, no thread has anything
      left to do with the pool once it is freed. */
  lemma FreedPoolIsUntouched(n: nat, m: nat, ls: seq<Label>)
    requires ValidRun(Init(n, m), ls) && QuietDestroy(Init(n, m), ls)
    ensures FreedIsUntouched(Exec(Init(n, m), ls))
  {
    InitInv(n, m);
    RunKeepsInv(Init(n, m), ls);
    QuietRunKeepsEmpty(Init(n, m), ls);
    FreedStaysEmpty(Init(n, m), ls);
    var s := Exec(Init(n, m), ls);
    if s.destroy.Freed? {
      forall l ensures !Enabled(s, l) {
        NothingEnabled(s, l);
      }
    }
  }

  lemma NothingEnabled(s: State, l: Label)
    requires FlagsOk(s) && s.destroy.Freed? && s.mutex.QueueFree? && NobodyInside(s)
    ensures !Enabled(s, l)
  {
  }

  /** A freed pool has an empty queue, a cleared bit, and nobody in the middle of adding a job. */
  ghost predicate FreedEmpty(s: State) {
    s.destroy.Freed? ==> s.mutex.QueueFree? && s.queue == [] && !s.bit
  }

  lemma StepKeepsFreedEmpty(s: State, l: Label)
    requires FlagsOk(s) && FreedEmpty(s) && Enabled(s, l)
    ensures FreedEmpty(Step(s, l))
  {
    match l
    case Worker(w, act) =>
      ExitedIsIdle(s, w, act);
      WorkersKeepDestroy(s, w, act);
    case Client(_) =>
    case Waiter(_, _) =>
    case Destroyer(_) =>
  }

  lemma ExitedIsIdle(s: State, w: nat, act: WorkerAct)
    ensures w < |s.workers| && s.workers[w].Exited? ==> !WorkerEnabled(s, w, act)
  {
  }

  lemma WorkersKeepDestroy(s: State, w: nat, act: WorkerAct)
    requires |s.late| == |s.workers| && WorkerEnabled(s, w, act)
    ensures StepWorker(s, w, act).destroy == s.destroy
  {
  }

  lemma {:induction false} FreedStaysEmpty(s: State, ls: seq<Label>)
    requires Inv(s) && FreedEmpty(s) && ValidRun(s, ls)
    ensures FreedEmpty(Exec(s, ls))
    decreases |ls|
  {
    if ls != [] {
      StepKeepsFreedEmpty(s, ls[0]);
      StepKeepsInv(s, ls[0]);
      FreedStaysEmpty(Step(s, ls[0]), ls[1..]);
    }
  }

  /** The clean-up leaves nothing queued or announced. */
  lemma FreedPoolIsEmpty(n: nat, m: nat, ls: seq<Label>)
    requires ValidRun(Init(n, m), ls)
    ensures var s := Exec(Init(n, m), ls); s.destroy.Freed? ==> s.queue == [] && !s.bit
  {
    InitInv(n, m);
    FreedStaysEmpty(Init(n, m), ls);
  }

  // ---------- destroying a pool over a caller ----------

  function Gone(n: nat, k: nat): seq<Phase> {
    seq(n, i => if i < k then Exited else LoopTest)
  }

  /** Workers that find the pool no longer kept alive leave, whatever is queued. */
  lemma {:induction false} WorkersLeave(s: State, k: nat) returns (ls: seq<Label>)
    requires k <= |s.workers| == |s.late| && !s.keepalive && s.lock.CountFree?
    requires s.workers == Gone(|s.workers|, 0) && s.alive == |s.workers|
    ensures ValidRun(s, ls)
    ensures Exec(s, ls) == s.(workers := Gone(|s.workers|, k), alive := |s.workers| - k)
  {
    if k == 0 {
      ls := [];
    } else {
      ls := WorkersLeave(s, k - 1);
      ls := Extend(s, ls, Worker(k - 1, Loop));
      ls := Extend(s, ls, Worker(k - 1, Leave));
      assert Gone(|s.workers|, k - 1)[k - 1 := Leaving][k - 1 := Exited] == Gone(|s.workers|, k);
    }
  }

  /** A job is queued and a caller waits for it. */
  lemma OneCallerSleeps(n: nat, m: nat) returns (ls: seq<Label>)
    requires m > 0
    ensures ValidRun(Init(n, m), ls)
    ensures var s := Started(n, m, n);
      Exec(Init(n, m), ls) == s.(ready := true, queue := [0], added := 1, bit := true,
                                 waiters := s.waiters[0 := Sleeping])
  {
    var i := Init(n, m);
    ls := StartWorkers(n, m, n);
    var s := Exec(i, ls);
    var add := AddOneJob(s);
    RunsCompose(i, ls, add);
    ls, s := ls + add, Exec(s, add);
    var sleep := CallerFallsAsleep(s, 0);
    RunsCompose(i, ls, sleep);
    ls := ls + sleep;
  }

  /** A settled pool that no worker will ever wake: they all left, the job they were to do is
      still queued, and the first caller sleeps. */
  ghost predicate Abandoned(s: State) {
    && |s.late| == |s.workers| && s.alive == 0 && s.queue == [0] && s.mutex.QueueFree?
    && s.lock.CountFree? && s.destroy.Polling?
    && (forall w :: 0 <= w < |s.workers| ==> s.workers[w].Exited?)
    && |s.waiters| > 0 && s.waiters[0].Sleeping?
    && (forall x :: 1 <= x < |s.waiters| ==> s.waiters[x].Outside?)
  }

  lemma CallerIsAbandoned(n: nat, m: nat) returns (ls: seq<Label>)
    requires m > 0
    ensures ValidRun(Init(n, m), ls)
    ensures var s := Exec(Init(n, m), ls); Abandoned(s) && Quiescent(s) && Inside(s.waiters[0])
  {
    var i := Init(n, m);
    ls := OneCallerSleeps(n, m);
    ls := Extend(i, ls, Destroyer(DestroyCall));
    var s := Exec(i, ls);
    assert s.workers == Gone(n, 0);
    var leave := WorkersLeave(s, n);
    RunsCompose(i, ls, leave);
    ls := ls + leave;
    AbandonedIsSettled(Exec(i, ls));
  }

  lemma AbandonedIsSettled(s: State)
    requires Abandoned(s)
    ensures Quiescent(s)
  {
  }

  /** The pool is freed under the sleeping caller, which reads it when its sleep ends. */
  lemma CallerOutlivesPool(n: nat, m: nat) returns (ls: seq<Label>)
    requires m > 0
    ensures ValidRun(Init(n, m), ls)
    ensures var s := Exec(Init(n, m), ls);
      && s.destroy.Freed? && Enabled(s, Waiter(0, WaitSpurious))
      && Enabled(Step(s, Waiter(0, WaitSpurious)), Waiter(0, ReadLen))
  {
    var i := Init(n, m);
    ls := CallerIsAbandoned(n, m);
    ls := Extend(i, ls, Destroyer(DestroyPoll));
    ls := Extend(i, ls, Destroyer(DestroyClear));
  }

  /** Without that precaution: exactly when every caller returns, and exactly when a freed pool
      is never touched - both only if nobody calls `thpool_wait` at all. */
  lemma DisposalIsSafeExactlyWhen(n: nat, m: nat)
    ensures (forall ls :: ValidRun(Init(n, m), ls) ==> CallersReturn(Exec(Init(n, m), ls))) <==> m == 0
    ensures (forall ls :: ValidRun(Init(n, m), ls) ==> FreedIsUntouched(Exec(Init(n, m), ls))) <==> m == 0
  {
    if m == 0 {
      forall ls | ValidRun(Init(n, m), ls)
        ensures CallersReturn(Exec(Init(n, m), ls)) && FreedIsUntouched(Exec(Init(n, m), ls))
      {
        RunKeepsSize(Init(n, m), ls);
        NoCallersAreQuiet(Init(n, m), ls);
        FreedPoolIsUntouched(n, m, ls);
      }
    } else {
      var settled := CallerIsAbandoned(n, m);
      assert !CallersReturn(Exec(Init(n, m), settled));
      var freed := CallerOutlivesPool(n, m);
      assert !FreedIsUntouched(Exec(Init(n, m), freed));
    }
  }

  lemma {:induction false} NoCallersAreQuiet(s: State, ls: seq<Label>)
    requires ValidRun(s, ls) && s.waiters == []
    ensures QuietDestroy(s, ls)
    decreases |ls|
  {
    if ls != [] {
      NoCallersAreQuiet(Step(s, ls[0]), ls[1..]);
    }
  }
}
