/** What every step of the thread pool keeps, for any number of workers, clients and waiters. */

module PoolSafety {
  import opened JobQueues
  import opened ThreadPool

  /** Start-up and shut-down flags against worker phases. */
  ghost predicate FlagsOk(s: State) {
    && |s.late| == |s.workers|
    && (s.keepalive <==> s.destroy.NotCalled?)
    && (!s.ready ==> s.destroy.NotCalled? && s.added == 0)
    && (s.ready ==> forall w :: 0 <= w < |s.workers| ==> !s.workers[w].Starting?)
    && (s.keepalive ==> forall w :: 0 <= w < |s.workers| ==> !s.workers[w].Leaving? && !s.workers[w].Exited?)
    && (s.destroy.Clearing? || s.destroy.Freed? ==> forall w :: 0 <= w < |s.workers| ==> s.workers[w].Exited?)
  }

  /** Both counters are exact. */
  ghost predicate CountersOk(s: State) {
    s.alive == Total(AliveMeter, s.workers) && s.working == Total(WorkingMeter, s.workers)
  }

  /** The queue mutex outlives a step only for a thread that owes a post. */
  ghost predicate MutexOk(s: State) {
    && (forall w :: 0 <= w < |s.workers| ==>
          (s.workers[w].Reposting? <==> s.mutex == HeldByWorker(w)))
    && (s.mutex.HeldByWorker? ==> s.mutex.worker < |s.workers|)
  }

  /** thcount_lock outlives a step only for a caller of `thpool_wait` between its reads. */
  ghost predicate LockOk(s: State) {
    && (forall x :: 0 <= x < |s.waiters| ==>
          (s.waiters[x].LenZero? || s.waiters[x].MustSleep? <==> s.lock == HeldByWaiter(x)))
    && (s.lock.HeldByWaiter? ==> s.lock.waiter < |s.waiters|)
  }

  predicate Busy(p: Phase) { p.Reposting? || p.Running? }

  predicate Holds(p: Phase, job: nat) { Busy(p) && p.job == job }

  /** Every added job is in exactly one place: queued, held by one worker, finished, or
      discarded by the shut-down; and the queue is what is left in the order of addition. */
  ghost predicate JobsOk(s: State) {
    && s.pulled <= s.added
    && (!s.destroy.Freed? ==> |s.queue| == s.added - s.pulled && s.discarded == {})
    && (s.destroy.Freed? ==> s.queue == [] && forall j :: j in s.discarded <==> s.pulled <= j < s.added)
    && (forall i :: 0 <= i < |s.queue| ==> s.queue[i] == s.pulled + i)
    && (forall w :: 0 <= w < |s.workers| && Busy(s.workers[w]) ==>
          s.workers[w].job < s.pulled && s.workers[w].job !in s.finished)
    && (forall v, w | 0 <= v < w < |s.workers| && Busy(s.workers[v]) && Busy(s.workers[w]) ::
          s.workers[v].job != s.workers[w].job)
    && (forall j :: 0 <= j < s.pulled ==> j in s.finished || exists w :: 0 <= w < |s.workers| && Holds(s.workers[w], j))
    && (forall j :: j in s.finished ==> j < s.pulled)
  }

  /** A worker between leaving `bsem_wait` and finishing its pull. */
  predicate HasToken(p: Phase) { p.KeepTest? || p.Counting? || p.Pulling? || p.Reposting? }

  /** While the pool is kept alive, queued work is announced, about to be, or being fetched. */
  ghost predicate NotStranded(s: State) {
    s.keepalive && s.queue != [] ==>
      || s.bit
      || s.mutex.HeldByAdder?
      || exists w :: 0 <= w < |s.workers| && HasToken(s.workers[w])
  }

  /** A set bit never faces sleepers alone. */
  ghost predicate SleepersCovered(s: State) {
    s.bit && (exists w :: 0 <= w < |s.workers| && s.workers[w].SemAsleep?) ==>
      exists w :: 0 <= w < |s.workers| && s.workers[w].SemAwake?
  }

  /** What a caller of `thpool_wait` knows about the jobs added before its look at the queue. */
  ghost predicate WaiterOk(p: WaiterPhase, s: State) {
    && (p.LenZero? ==> forall j :: 0 <= j < p.added ==> j < s.pulled || j in s.discarded)
    && (p.Returned? ==> forall j :: 0 <= j < p.added ==> j in s.finished || j in s.discarded)
  }

  ghost predicate WaitersOk(s: State) {
    forall x :: 0 <= x < |s.waiters| ==> WaiterOk(s.waiters[x], s)
  }

  /** After the shut-down began a worker takes at most one more job. */
  ghost predicate LateOk(s: State) {
    && |s.late| == |s.workers|
    && (forall w :: 0 <= w < |s.late| ==> s.late[w] <= 1)
    && (forall w :: 0 <= w < |s.late| && s.late[w] == 1 ==>
          && !s.keepalive
          && var p := s.workers[w];
             p.Reposting? || p.Running? || p.Finishing? || p.LoopTest? || p.Leaving? || p.Exited?)
  }

  ghost predicate Inv(s: State) {
    && FlagsOk(s) && CountersOk(s) && MutexOk(s) && LockOk(s) && JobsOk(s)
    && NotStranded(s) && SleepersCovered(s) && WaitersOk(s) && LateOk(s)
  }

  // ---------- preservation ----------

  lemma CountersAfterMove(s: State, t: State, w: nat)
    requires CountersOk(s) && w < |s.workers| == |t.workers|
    requires t.workers == s.workers[w := t.workers[w]]
    requires t.alive == s.alive + Reading(AliveMeter, t.workers[w]) - Reading(AliveMeter, s.workers[w])
    requires t.working == s.working + Reading(WorkingMeter, t.workers[w]) - Reading(WorkingMeter, s.workers[w])
    ensures CountersOk(t)
  {
    TotalUpdate(AliveMeter, s.workers, w, t.workers[w]);
    TotalUpdate(WorkingMeter, s.workers, w, t.workers[w]);
  }

  lemma CountersAfterWake(s: State, t: State, woken: set<nat>)
    requires CountersOk(s) && woken <= Asleep(s.workers) && t.workers == Wake(s.workers, woken)
    requires t.alive == s.alive && t.working == s.working
    ensures CountersOk(t)
  {
    TotalWake(AliveMeter, s.workers, t.workers);
    TotalWake(WorkingMeter, s.workers, t.workers);
  }

  lemma WorkerKeepsCounters(s: State, w: nat, act: WorkerAct)
    requires |s.late| == |s.workers| && CountersOk(s) && WorkerEnabled(s, w, act)
    ensures CountersOk(StepWorker(s, w, act))
  {
    var t := StepWorker(s, w, act);
    if act.Repost? {
      var awake := s.(workers := Wake(s.workers, act.woken));
      CountersAfterWake(s, awake, act.woken);
      CountersAfterMove(awake, t, w);
    } else {
      CountersAfterMove(s, t, w);
    }
  }

  lemma CountersKept(s: State, l: Label)
    requires CountersOk(s) && Enabled(s, l)
    ensures CountersOk(Step(s, l))
  {
    match l
    case Worker(w, act) => WorkerKeepsCounters(s, w, act);
    case Client(AddPost(woken)) => CountersAfterWake(s, Step(s, l), woken);
    case Destroyer(DestroyPost) => CountersAfterWake(s, Step(s, l), Asleep(s.workers));
    case _ =>
  }

  lemma WorkerKeepsFlags(s: State, w: nat, act: WorkerAct)
    requires FlagsOk(s) && WorkerEnabled(s, w, act)
    ensures FlagsOk(StepWorker(s, w, act))
  {
  }

  lemma FlagsKept(s: State, l: Label)
    requires FlagsOk(s) && CountersOk(s) && Enabled(s, l)
    ensures FlagsOk(Step(s, l))
  {
    match l
    case Worker(w, act) => WorkerKeepsFlags(s, w, act);
    case Client(act) => ClientKeepsFlags(s, act);
    case Waiter(_, _) =>
    case Destroyer(act) => DestroyKeepsFlags(s, act);
  }

  lemma ClientKeepsFlags(s: State, act: ClientAct)
    requires FlagsOk(s) && CountersOk(s) && ClientEnabled(s, act)
    ensures FlagsOk(StepClient(s, act))
  {
    if act.InitDone? { TotalExtremes(AliveMeter, s.workers); }
  }

  lemma DestroyKeepsFlags(s: State, act: DestroyAct)
    requires FlagsOk(s) && CountersOk(s) && DestroyEnabled(s, act)
    ensures FlagsOk(StepDestroy(s, act))
  {
    if act.DestroyPoll? { TotalExtremes(AliveMeter, s.workers); }
  }

  lemma WorkerKeepsMutex(s: State, w: nat, act: WorkerAct)
    requires MutexOk(s) && |s.late| == |s.workers| && WorkerEnabled(s, w, act)
    ensures MutexOk(StepWorker(s, w, act))
  {
  }

  lemma MutexKept(s: State, l: Label)
    requires MutexOk(s) && Enabled(s, l)
    ensures MutexOk(Step(s, l))
  {
    match l
    case Worker(w, act) => WorkerKeepsMutex(s, w, act);
    case Client(act) => ClientKeepsMutex(s, act);
    case Waiter(_, _) =>
    case Destroyer(act) => DestroyKeepsMutex(s, act);
  }

  lemma ClientKeepsMutex(s: State, act: ClientAct)
    requires MutexOk(s) && ClientEnabled(s, act)
    ensures MutexOk(StepClient(s, act))
  {
  }

  lemma DestroyKeepsMutex(s: State, act: DestroyAct)
    requires MutexOk(s) && DestroyEnabled(s, act)
    ensures MutexOk(StepDestroy(s, act))
  {
  }

  lemma WaiterKeepsLock(s: State, x: nat, act: WaiterAct)
    requires LockOk(s) && WaiterEnabled(s, x, act)
    ensures LockOk(StepWaiter(s, x, act))
  {
  }

  lemma LockKept(s: State, l: Label)
    requires LockOk(s) && Enabled(s, l)
    ensures LockOk(Step(s, l))
  {
    match l
    case Worker(w, act) => WorkersOnlyNotify(s, w, act);
    case Waiter(x, act) => WaiterKeepsLock(s, x, act);
    case _ =>
  }

  lemma UncountOnlyNotifies(s: State, w: nat, notified: set<nat>)
    requires WorkerEnabled(s, w, Uncount(notified))
    ensures forall x :: 0 <= x < |s.waiters| ==>
      Notify(s.waiters, notified)[x] == s.waiters[x]
      || (s.waiters[x].Sleeping? && Notify(s.waiters, notified)[x].Woken?)
  {
  }

  lemma OnlyUncountNotifies(s: State, w: nat, act: WorkerAct)
    requires |s.late| == |s.workers| && WorkerEnabled(s, w, act)
    ensures StepWorker(s, w, act).waiters == if act.Uncount? then Notify(s.waiters, act.notified) else s.waiters
  {
  }

  /** A worker leaves thcount_lock as it was and wakes at most sleeping waiters. */
  lemma WorkersOnlyNotify(s: State, w: nat, act: WorkerAct)
    requires |s.late| == |s.workers| && WorkerEnabled(s, w, act)
    ensures var t := StepWorker(s, w, act);
            && t.lock == s.lock && t.added == s.added && t.discarded == s.discarded
            && t.pulled >= s.pulled && t.finished >= s.finished
            && |t.waiters| == |s.waiters|
            && (forall x :: 0 <= x < |s.waiters| ==>
                  t.waiters[x] == s.waiters[x] || (s.waiters[x].Sleeping? && t.waiters[x].Woken?))
  {
    OnlyUncountNotifies(s, w, act);
    if act.Uncount? { UncountOnlyNotifies(s, w, act.notified); }
  }

  /** A step that moves no job keeps the accounting. */
  lemma JobsFrame(s: State, t: State)
    requires JobsOk(s) && |t.workers| == |s.workers|
    requires t.added == s.added && t.pulled == s.pulled && t.finished == s.finished
    requires t.queue == s.queue && t.discarded == s.discarded && t.destroy.Freed? == s.destroy.Freed?
    requires forall w :: 0 <= w < |s.workers| ==>
               Busy(t.workers[w]) == Busy(s.workers[w])
               && (Busy(s.workers[w]) ==> t.workers[w].job == s.workers[w].job)
    ensures JobsOk(t)
  {
    forall j | 0 <= j < t.pulled && j !in t.finished
      ensures exists w :: 0 <= w < |t.workers| && Holds(t.workers[w], j)
    {
      var w :| 0 <= w < |s.workers| && Holds(s.workers[w], j);
      assert Holds(t.workers[w], j);
    }
  }

  lemma PullKeepsJobs(s: State, w: nat)
    requires FlagsOk(s) && JobsOk(s) && WorkerEnabled(s, w, PullJob) && s.queue != []
    ensures JobsOk(StepPull(s, w))
  {
    var t := StepPull(s, w);
    assert Holds(t.workers[w], s.pulled);
    forall j | 0 <= j < t.pulled && j !in t.finished
      ensures exists v :: 0 <= v < |t.workers| && Holds(t.workers[v], j)
    {
      if j < s.pulled {
        var v :| 0 <= v < |s.workers| && Holds(s.workers[v], j);
        assert Holds(t.workers[v], j);
      }
    }
  }

  lemma RunKeepsJobs(s: State, w: nat)
    requires FlagsOk(s) && JobsOk(s) && WorkerEnabled(s, w, RunJob)
    ensures JobsOk(StepWorker(s, w, RunJob))
  {
    var t := StepWorker(s, w, RunJob);
    forall j | 0 <= j < t.pulled && j !in t.finished
      ensures exists v :: 0 <= v < |t.workers| && Holds(t.workers[v], j)
    {
      var v :| 0 <= v < |s.workers| && Holds(s.workers[v], j);
      assert Holds(t.workers[v], j);
    }
  }

  lemma WorkerKeepsJobs(s: State, w: nat, act: WorkerAct)
    requires FlagsOk(s) && JobsOk(s) && WorkerEnabled(s, w, act)
    ensures JobsOk(StepWorker(s, w, act))
  {
    if act.PullJob? && s.queue != [] {
      PullKeepsJobs(s, w);
    } else if act.RunJob? {
      RunKeepsJobs(s, w);
    } else {
      JobsFrame(s, StepWorker(s, w, act));
    }
  }

  lemma JobsKept(s: State, l: Label)
    requires FlagsOk(s) && JobsOk(s) && Enabled(s, l)
    ensures JobsOk(Step(s, l))
  {
    match l
    case Worker(w, act) => WorkerKeepsJobs(s, w, act);
    case Client(act) => ClientKeepsJobs(s, act);
    case Waiter(x, act) => JobsFrame(s, StepWaiter(s, x, act));
    case Destroyer(act) => DestroyKeepsJobs(s, act);
  }

  lemma ClientKeepsJobs(s: State, act: ClientAct)
    requires FlagsOk(s) && JobsOk(s) && ClientEnabled(s, act)
    ensures JobsOk(StepClient(s, act))
  {
    if act.AddLink? { LinkKeepsJobs(s); } else { JobsFrame(s, StepClient(s, act)); }
  }

  lemma DestroyKeepsJobs(s: State, act: DestroyAct)
    requires FlagsOk(s) && JobsOk(s) && DestroyEnabled(s, act)
    ensures JobsOk(StepDestroy(s, act))
  {
    if act.DestroyClear? { ClearKeepsJobs(s); } else { JobsFrame(s, StepDestroy(s, act)); }
  }

  lemma LinkKeepsJobs(s: State)
    requires FlagsOk(s) && JobsOk(s) && ClientEnabled(s, AddLink)
    ensures JobsOk(StepClient(s, AddLink))
  {
    var t := StepClient(s, AddLink);
    assert t.workers == s.workers;
  }

  lemma ClearKeepsJobs(s: State)
    requires FlagsOk(s) && JobsOk(s) && DestroyEnabled(s, DestroyClear)
    ensures JobsOk(StepDestroy(s, DestroyClear))
  {
    forall j ensures j in s.queue <==> s.pulled <= j < s.added {
      if s.pulled <= j < s.added { assert s.queue[j - s.pulled] == j; }
    }
  }

  /** A worker with a token keeps it until it has set the bit again or emptied the queue. */
  lemma TokenIsKept(s: State, w: nat, act: WorkerAct)
    requires |s.late| == |s.workers| && WorkerEnabled(s, w, act) && s.keepalive && HasToken(s.workers[w])
    ensures var t := StepWorker(s, w, act); HasToken(t.workers[w]) || t.bit || t.queue == []
  {
  }

  /** Other workers keep their tokens, and the bit is only taken for one. */
  lemma OthersKeepTokens(s: State, w: nat, act: WorkerAct)
    requires |s.late| == |s.workers| && WorkerEnabled(s, w, act)
    ensures var t := StepWorker(s, w, act);
      && t.keepalive == s.keepalive && (s.bit ==> t.bit || HasToken(t.workers[w]))
      && (s.mutex.HeldByAdder? && !s.workers[w].Reposting? ==> t.mutex.HeldByAdder?)
      && (t.queue != [] ==> s.queue != [])
      && forall v :: 0 <= v < |s.workers| && v != w && HasToken(s.workers[v]) ==> HasToken(t.workers[v])
  {
  }

  lemma WorkerKeepsNotStranded(s: State, w: nat, act: WorkerAct)
    requires |s.late| == |s.workers| && MutexOk(s) && NotStranded(s) && WorkerEnabled(s, w, act)
    ensures NotStranded(StepWorker(s, w, act))
  {
    var t := StepWorker(s, w, act);
    OthersKeepTokens(s, w, act);
    if t.keepalive && t.queue != [] && !s.bit && !s.mutex.HeldByAdder? {
      var v :| 0 <= v < |s.workers| && HasToken(s.workers[v]);
      if v == w { TokenIsKept(s, w, act); }
      assert HasToken(t.workers[v]) || t.bit;
    }
  }

  lemma ClientKeepsNotStranded(s: State, act: ClientAct)
    requires NotStranded(s) && ClientEnabled(s, act)
    ensures NotStranded(StepClient(s, act))
  {
    if act.InitDone? && s.keepalive && s.queue != [] && !s.bit && !s.mutex.HeldByAdder? {
      var v :| 0 <= v < |s.workers| && HasToken(s.workers[v]);
      assert HasToken(StepClient(s, act).workers[v]);
    }
  }

  lemma WaiterKeepsNotStranded(s: State, x: nat, act: WaiterAct)
    requires NotStranded(s) && WaiterEnabled(s, x, act)
    ensures NotStranded(StepWaiter(s, x, act))
  {
    assert StepWaiter(s, x, act).workers == s.workers;
  }

  lemma NotStrandedKept(s: State, l: Label)
    requires FlagsOk(s) && MutexOk(s) && NotStranded(s) && Enabled(s, l)
    ensures NotStranded(Step(s, l))
  {
    match l
    case Worker(w, act) => WorkerKeepsNotStranded(s, w, act);
    case Client(act) => ClientKeepsNotStranded(s, act);
    case Waiter(x, act) => WaiterKeepsNotStranded(s, x, act);
    case Destroyer(_) => assert !Step(s, l).keepalive;
  }

  lemma WorkerKeepsSleepers(s: State, w: nat, act: WorkerAct)
    requires |s.late| == |s.workers| && SleepersCovered(s) && WorkerEnabled(s, w, act)
    ensures SleepersCovered(StepWorker(s, w, act))
  {
    var t := StepWorker(s, w, act);
    if t.bit && exists v :: 0 <= v < |t.workers| && t.workers[v].SemAsleep? {
      var v :| 0 <= v < |t.workers| && t.workers[v].SemAsleep?;
      assert s.workers[v].SemAsleep? && v in Asleep(s.workers);
      var u :| if act.Repost? then u in act.woken else 0 <= u < |s.workers| && s.workers[u].SemAwake?;
      assert t.workers[u].SemAwake?;
    }
  }

  lemma SleepersKept(s: State, l: Label)
    requires SleepersCovered(s) && Enabled(s, l)
    ensures SleepersCovered(Step(s, l))
  {
    match l
    case Worker(w, act) => WorkerKeepsSleepers(s, w, act);
    case Client(AddPost(woken)) =>
      var t := Step(s, l);
      if v :| 0 <= v < |t.workers| && t.workers[v].SemAsleep? {
        assert v in Asleep(s.workers);
        var u :| u in woken;
        assert t.workers[u].SemAwake?;
      }
    case _ =>
  }

  lemma ReadWorkingIsSound(s: State, x: nat)
    requires CountersOk(s) && JobsOk(s) && WaitersOk(s) && WaiterEnabled(s, x, ReadWorking)
    ensures var t := StepWaiter(s, x, ReadWorking); WaiterOk(t.waiters[x], t)
  {
    assert WaiterOk(s.waiters[x], s);
    if s.working == 0 {
      TotalExtremes(WorkingMeter, s.workers);
      assert forall w :: 0 <= w < |s.workers| ==> Reading(WorkingMeter, s.workers[w]) == 0;
      assert forall j :: 0 <= j < s.pulled ==> j in s.finished;
    }
  }

  lemma WaitersFrame(s: State, t: State, x: nat)
    requires WaitersOk(s) && |t.waiters| == |s.waiters|
    requires forall y :: 0 <= y < |s.waiters| && y != x ==>
               t.waiters[y] == s.waiters[y] || t.waiters[y].Woken?
    requires x < |s.waiters| ==> WaiterOk(t.waiters[x], t)
    requires t.pulled >= s.pulled && t.finished >= s.finished && t.discarded >= s.discarded
    ensures WaitersOk(t)
  {
    forall y | 0 <= y < |t.waiters| ensures WaiterOk(t.waiters[y], t) {
      assert WaiterOk(s.waiters[y], s);
    }
  }

  lemma WaiterKeepsWaiters(s: State, x: nat, act: WaiterAct)
    requires CountersOk(s) && JobsOk(s) && WaitersOk(s) && WaiterEnabled(s, x, act)
    ensures WaitersOk(StepWaiter(s, x, act))
  {
    if act.ReadWorking? { ReadWorkingIsSound(s, x); }
    WaitersFrame(s, StepWaiter(s, x, act), x);
  }

  lemma WaitersKept(s: State, l: Label)
    requires CountersOk(s) && JobsOk(s) && WaitersOk(s) && Enabled(s, l)
    ensures WaitersOk(Step(s, l))
  {
    match l
    case Worker(w, act) =>
      WorkersOnlyNotify(s, w, act);
      WaitersFrame(s, StepWorker(s, w, act), |s.waiters|);
    case Waiter(x, act) => WaiterKeepsWaiters(s, x, act);
    case Client(act) => WaitersFrame(s, StepClient(s, act), |s.waiters|);
    case Destroyer(act) => WaitersFrame(s, StepDestroy(s, act), |s.waiters|);
  }

  lemma WorkerKeepsLate(s: State, w: nat, act: WorkerAct)
    requires FlagsOk(s) && LateOk(s) && WorkerEnabled(s, w, act)
    ensures LateOk(StepWorker(s, w, act))
  {
  }

  lemma LateKept(s: State, l: Label)
    requires FlagsOk(s) && LateOk(s) && Enabled(s, l)
    ensures LateOk(Step(s, l))
  {
    match l
    case Worker(w, act) => WorkerKeepsLate(s, w, act);
    case Client(act) => ClientKeepsLate(s, act);
    case Waiter(_, _) =>
    case Destroyer(act) => DestroyKeepsLate(s, act);
  }

  lemma ClientKeepsLate(s: State, act: ClientAct)
    requires LateOk(s) && ClientEnabled(s, act)
    ensures LateOk(StepClient(s, act))
  {
  }

  lemma DestroyKeepsLate(s: State, act: DestroyAct)
    requires LateOk(s) && DestroyEnabled(s, act)
    ensures LateOk(StepDestroy(s, act))
  {
  }

  lemma StepKeepsInv(s: State, l: Label)
    requires Inv(s) && Enabled(s, l)
    ensures Inv(Step(s, l))
  {
    FlagsKept(s, l);
    CountersKept(s, l);
    MutexKept(s, l);
    LockKept(s, l);
    JobsKept(s, l);
    NotStrandedKept(s, l);
    SleepersKept(s, l);
    WaitersKept(s, l);
    LateKept(s, l);
  }

  /** A worker wakes callers of `thpool_wait` only when it leaves nobody working, and then at
      least one of those that sleep. */
  lemma WakesOnlyWhenIdle(s: State, w: nat, act: WorkerAct)
    requires |s.late| == |s.workers| && WorkerEnabled(s, w, act)
    ensures var t := StepWorker(s, w, act);
      && (t.waiters != s.waiters ==> t.working == 0 && act.Uncount?)
      && (act.Uncount? && t.working == 0 && SleepingWaiters(s.waiters) != {} ==>
            exists x :: 0 <= x < |s.waiters| && s.waiters[x].Sleeping? && t.waiters[x].Woken?)
  {
    OnlyUncountNotifies(s, w, act);
    if act.Uncount? {
      var t := StepWorker(s, w, act);
      if act.notified == {} {
        assert Notify(s.waiters, {}) == s.waiters;
      } else {
        var x :| x in act.notified;
        assert t.waiters[x].Woken?;
      }
    }
  }

  // ---------- runs ----------

  lemma InitInv(n: nat, m: nat)
    ensures Inv(Init(n, m))
  {
    TotalExtremes(AliveMeter, Init(n, m).workers);
    TotalExtremes(WorkingMeter, Init(n, m).workers);
  }

  lemma {:induction false} RunKeepsInv(s: State, ls: seq<Label>)
    requires Inv(s) && ValidRun(s, ls)
    ensures Inv(Exec(s, ls))
    decreases |ls|
  {
    if ls != [] {
      StepKeepsInv(s, ls[0]);
      RunKeepsInv(Step(s, ls[0]), ls[1..]);
    }
  }

  /** Queued work never waits for a pool that sleeps: whenever jobs are queued in a live pool,
      the bit is set, an adder owes its post, or a worker is on its way to the queue; and a
      set bit with sleepers has a worker already woken. So with the queue mutex free some
      worker is not asleep. */
  lemma NoStrandedJob(n: nat, m: nat, ls: seq<Label>)
    requires n > 0 && ValidRun(Init(n, m), ls)
    ensures var s := Exec(Init(n, m), ls);
      s.keepalive && s.queue != [] ==>
        && (s.bit || s.mutex.HeldByAdder? || exists w :: 0 <= w < |s.workers| && HasToken(s.workers[w]))
        && (s.bit && Asleep(s.workers) != {} ==>
              exists w :: 0 <= w < |s.workers| && s.workers[w].SemAwake?)
        && (s.mutex.HeldByAdder? || exists w :: 0 <= w < |s.workers| && !s.workers[w].SemAsleep?)
  {
    InitInv(n, m);
    RunKeepsInv(Init(n, m), ls);
    RunKeepsSize(Init(n, m), ls);
    var s := Exec(Init(n, m), ls);
    if Asleep(s.workers) != {} {
      var w :| w in Asleep(s.workers);
      assert s.workers[w].SemAsleep?;
    } else {
      assert 0 !in Asleep(s.workers);
    }
  }

  /** num_threads_working counts exactly the workers between its increment and its decrement,
      num_threads_alive those between their first and their last step. */
  lemma CountersAreExact(n: nat, m: nat, ls: seq<Label>)
    requires ValidRun(Init(n, m), ls)
    ensures var s := Exec(Init(n, m), ls);
      && s.working == |set w | 0 <= w < |s.workers| && IsWorking(s.workers[w])|
      && s.alive == |set w | 0 <= w < |s.workers| && IsAlive(s.workers[w])|
  {
    InitInv(n, m);
    RunKeepsInv(Init(n, m), ls);
    var s := Exec(Init(n, m), ls);
    TotalIsCardinality(WorkingMeter, s.workers);
    TotalIsCardinality(AliveMeter, s.workers);
    assert Counted(WorkingMeter, s.workers) == set w | 0 <= w < |s.workers| && IsWorking(s.workers[w]);
    assert Counted(AliveMeter, s.workers) == set w | 0 <= w < |s.workers| && IsAlive(s.workers[w]);
  }

  function Counted(meter: Meter, workers: seq<Phase>): set<nat> {
    set w | 0 <= w < |workers| && Reading(meter, workers[w]) == 1
  }

  lemma {:induction false} TotalOfLast(meter: Meter, workers: seq<Phase>)
    requires workers != []
    ensures Total(meter, workers) == Total(meter, workers[..|workers| - 1]) + Reading(meter, workers[|workers| - 1])
    decreases |workers|
  {
    if |workers| > 1 {
      TotalOfLast(meter, workers[1..]);
      assert workers[1..][..|workers| - 2] == workers[..|workers| - 1][1..];
    }
  }

  lemma {:induction false} TotalIsCardinality(meter: Meter, workers: seq<Phase>)
    requires !meter.EffortMeter?
    ensures Total(meter, workers) == |Counted(meter, workers)|
    decreases |workers|
  {
    if workers != [] {
      var n := |workers| - 1;
      TotalOfLast(meter, workers);
      TotalIsCardinality(meter, workers[..n]);
      assert Counted(meter, workers) ==
             Counted(meter, workers[..n]) + if Reading(meter, workers[n]) == 1 then {n} else {};
    }
  }

  lemma {:induction false} RunKeepsSize(s: State, ls: seq<Label>)
    requires ValidRun(s, ls)
    ensures |Exec(s, ls).workers| == |s.workers| && |Exec(s, ls).waiters| == |s.waiters|
    decreases |ls|
  {
    if ls != [] {
      RunKeepsSize(Step(s, ls[0]), ls[1..]);
    }
  }

  /** The workers that hold a job. */
  function Holders(s: State, job: nat): set<nat> {
    set w | 0 <= w < |s.workers| && Holds(s.workers[w], job)
  }

  /** Exactly-once execution: an added job is in exactly one of four places, at most one
      worker ever holds it, and nothing is discarded before the pool is freed. */
  lemma ExactlyOnce(n: nat, m: nat, ls: seq<Label>, job: nat)
    requires ValidRun(Init(n, m), ls) && job < Exec(Init(n, m), ls).added
    ensures var s := Exec(Init(n, m), ls);
      && (if job in s.queue then 1 else 0) + |Holders(s, job)|
         + (if job in s.finished then 1 else 0) + (if job in s.discarded then 1 else 0) == 1
      && (s.discarded != {} ==> s.destroy.Freed?)
  {
    InitInv(n, m);
    RunKeepsInv(Init(n, m), ls);
    PlacedOnce(Exec(Init(n, m), ls), job);
  }

  lemma PlacedOnce(s: State, job: nat)
    requires JobsOk(s) && job < s.added
    ensures (if job in s.queue then 1 else 0) + |Holders(s, job)|
            + (if job in s.finished then 1 else 0) + (if job in s.discarded then 1 else 0) == 1
  {
    assert job in s.queue <==> s.pulled <= job && !s.destroy.Freed? by {
      if s.pulled <= job && !s.destroy.Freed? {
        assert s.queue[job - s.pulled] == job;
      }
    }
    assert job in s.discarded <==> s.pulled <= job && s.destroy.Freed?;
    if job < s.pulled && job !in s.finished {
      var w :| 0 <= w < |s.workers| && Holds(s.workers[w], job);
      assert Holders(s, job) == {w};
    } else {
      assert Holders(s, job) == {};
    }
  }

  /** The jobs handed to workers along a run, in the order of the pulls. */
  function HandedOut(s: State, ls: seq<Label>): seq<nat>
    requires ValidRun(s, ls)
    decreases |ls|
  {
    if ls == [] then []
    else (if ls[0].Worker? && ls[0].does.PullJob? && s.queue != [] then [s.queue[0]] else [])
         + HandedOut(Step(s, ls[0]), ls[1..])
  }

  /** Jobs are pulled in the order in which they were added, none skipped or repeated. */
  lemma {:induction false} PulledInOrder(s: State, ls: seq<Label>)
    requires Inv(s) && ValidRun(s, ls)
    ensures var out := HandedOut(s, ls);
      && Exec(s, ls).pulled == s.pulled + |out|
      && forall k :: 0 <= k < |out| ==> out[k] == s.pulled + k
    decreases |ls|
  {
    if ls != [] {
      var t := Step(s, ls[0]);
      StepKeepsInv(s, ls[0]);
      PulledByStep(s, ls[0]);
      PulledInOrder(t, ls[1..]);
    }
  }

  lemma PulledByStep(s: State, l: Label)
    requires Enabled(s, l)
    ensures Step(s, l).pulled ==
            s.pulled + if l.Worker? && l.does.PullJob? && s.queue != [] then 1 else 0
  {
    if l.Worker? { PulledByWorker(s, l.w, l.does); }
  }

  lemma PulledByWorker(s: State, w: nat, act: WorkerAct)
    requires |s.late| == |s.workers| && WorkerEnabled(s, w, act)
    ensures StepWorker(s, w, act).pulled == s.pulled + if act.PullJob? && s.queue != [] then 1 else 0
  {
  }

  /** When `thpool_wait` returns, every job added before its last look at the queue length has
      been executed (or thrown away by a shut-down that already freed the pool). */
  lemma WaitIsSound(n: nat, m: nat, ls: seq<Label>, x: nat, job: nat)
    requires ValidRun(Init(n, m), ls) && x < m
    ensures var s := Exec(Init(n, m), ls);
      && |s.waiters| == m
      && (s.waiters[x].Returned? && job < s.waiters[x].added ==>
            job in s.finished || (s.destroy.Freed? && job in s.discarded))
  {
    InitInv(n, m);
    RunKeepsInv(Init(n, m), ls);
    RunKeepsSize(Init(n, m), ls);
    var s := Exec(Init(n, m), ls);
    assert WaiterOk(s.waiters[x], s);
  }

  /** After threads_keepalive is cleared no worker takes more than one further job, and the
      queue is freed only when the live counter is zero because every worker has left. */
  lemma ShutDownIsOrderly(n: nat, m: nat, ls: seq<Label>)
    requires ValidRun(Init(n, m), ls)
    ensures var s := Exec(Init(n, m), ls);
      && |s.late| == |s.workers| == n
      && (forall w :: 0 <= w < n ==> s.late[w] <= 1)
      && (s.destroy.Clearing? || s.destroy.Freed? ==>
            s.alive == 0 && forall w :: 0 <= w < n ==> s.workers[w].Exited?)
  {
    InitInv(n, m);
    RunKeepsInv(Init(n, m), ls);
    RunKeepsSize(Init(n, m), ls);
    TotalExtremes(AliveMeter, Exec(Init(n, m), ls).workers);
  }
}
