/** What the thread pool eventually does. A run of the pool's own steps - no new call, no
    spurious wake-up - is bounded, and when it can go no further all work is done. */

module PoolProgress {
  import opened ThreadPool
  import opened PoolSafety

  /** The steps that threads already inside the pool take by themselves. */
  predicate OwnStep(l: Label) {
    match l
    case Worker(_, act) => !act.SemSpurious?
    case Client(act) => act.AddPost?
    case Waiter(_, act) => act.ReadLen? || act.ReadWorking? || act.WaitSleep?
    case Destroyer(_) => false
  }

  predicate OwnRun(ls: seq<Label>) { forall i :: 0 <= i < |ls| ==> OwnStep(ls[i]) }

  ghost predicate Quiescent(s: State) { forall l :: OwnStep(l) ==> !Enabled(s, l) }

  // ---------- the bound ----------

  function WaiterReading(p: WaiterPhase): nat {
    match p
    case Outside => 0
    case Returned(_) => 0
    case Sleeping => 0
    case MustSleep => 1
    case LenZero(_) => 2
    case Entering => 3
    case Woken => 3
  }

  function WaiterTotal(waiters: seq<WaiterPhase>): nat {
    if waiters == [] then 0 else WaiterReading(waiters[0]) + WaiterTotal(waiters[1..])
  }

  lemma {:induction false} WaiterTotalUpdate(waiters: seq<WaiterPhase>, x: nat, p: WaiterPhase)
    requires x < |waiters|
    ensures WaiterTotal(waiters[x := p]) + WaiterReading(waiters[x]) ==
            WaiterTotal(waiters) + WaiterReading(p)
  {
    if x == 0 {
      assert waiters[x := p][1..] == waiters[1..];
    } else {
      WaiterTotalUpdate(waiters[1..], x - 1, p);
      assert waiters[x := p][1..] == waiters[1..][x - 1 := p];
    }
  }

  lemma {:induction false} WaiterTotalNotify(old_: seq<WaiterPhase>, new_: seq<WaiterPhase>)
    requires |old_| == |new_|
    requires forall i :: 0 <= i < |old_| ==>
               new_[i] == old_[i] || (old_[i].Sleeping? && new_[i].Woken?)
    ensures WaiterTotal(new_) <= WaiterTotal(old_) + 3 * |old_|
  {
    if old_ != [] {
      WaiterTotalNotify(old_[1..], new_[1..]);
    }
  }

  /** What one queued job, the set bit, and an owed post may still cause in a pool of `n`
      workers and `m` waiters. */
  function JobCost(n: nat, m: nat): nat { n + 8 + 3 * m }

  function BitCost(m: nat): nat { 8 + 3 * m }

  function PostCost(n: nat, m: nat): nat { n + 9 + 3 * m }

  function Effort(s: State): nat {
    var n, m := |s.workers|, |s.waiters|;
    |s.queue| * JobCost(n, m) + Announced(s)
    + (if s.mutex.HeldByAdder? then PostCost(n, m) else 0)
    + Total(EffortMeter(n, m), s.workers) + WaiterTotal(s.waiters)
  }

  function Announced(s: State): nat { if s.bit then BitCost(|s.waiters|) else 0 }

  lemma MoveCosts(s: State, t: State, w: nat)
    requires w < |s.workers| == |t.workers| && t.workers == s.workers[w := t.workers[w]]
    requires t.waiters == s.waiters && |t.queue| == |s.queue| && t.mutex.HeldByAdder? == s.mutex.HeldByAdder?
    ensures var meter := EffortMeter(|s.workers|, |s.waiters|);
            Effort(t) + Reading(meter, s.workers[w]) + Announced(s) ==
            Effort(s) + Reading(meter, t.workers[w]) + Announced(t)
  {
    TotalUpdate(EffortMeter(|s.workers|, |s.waiters|), s.workers, w, t.workers[w]);
  }

  lemma RepostCosts(s: State, w: nat, woken: set<nat>)
    requires |s.late| == |s.workers| && MutexOk(s) && WorkerEnabled(s, w, Repost(woken))
    ensures Effort(StepWorker(s, w, Repost(woken))) < Effort(s)
  {
    var t := StepWorker(s, w, Repost(woken));
    var awake := s.(workers := Wake(s.workers, woken));
    TotalWake(EffortMeter(|s.workers|, |s.waiters|), s.workers, awake.workers);
    MoveCosts(awake, t, w);
  }

  lemma UncountCosts(s: State, w: nat, notified: set<nat>)
    requires |s.late| == |s.workers| && WorkerEnabled(s, w, Uncount(notified))
    ensures Effort(StepWorker(s, w, Uncount(notified))) < Effort(s)
  {
    var t := StepWorker(s, w, Uncount(notified));
    MoveCosts(s, t.(waiters := s.waiters), w);
    WaiterTotalNotify(s.waiters, t.waiters);
  }

  lemma PullCosts(s: State, w: nat)
    requires |s.late| == |s.workers| && WorkerEnabled(s, w, PullJob)
    ensures Effort(StepPull(s, w)) < Effort(s)
  {
    var t := StepPull(s, w);
    MoveCosts(s, t.(queue := s.queue), w);
    if s.queue != [] {
      var c := JobCost(|s.workers|, |s.waiters|);
      assert |s.queue| * c == (|s.queue| - 1) * c + c;
    }
  }

  lemma WorkerStepCosts(s: State, w: nat, act: WorkerAct)
    requires |s.late| == |s.workers| && MutexOk(s) && WorkerEnabled(s, w, act) && !act.SemSpurious?
    ensures Effort(StepWorker(s, w, act)) < Effort(s)
  {
    if act.Repost? {
      RepostCosts(s, w, act.woken);
    } else if act.Uncount? {
      UncountCosts(s, w, act.notified);
    } else if act.PullJob? {
      PullCosts(s, w);
    } else {
      MoveCosts(s, StepWorker(s, w, act), w);
    }
  }

  lemma AddPostCosts(s: State, woken: set<nat>)
    requires ClientEnabled(s, AddPost(woken))
    ensures Effort(StepClient(s, AddPost(woken))) < Effort(s)
  {
    TotalWake(EffortMeter(|s.workers|, |s.waiters|), s.workers, Wake(s.workers, woken));
  }

  lemma WaiterStepCosts(s: State, x: nat, act: WaiterAct)
    requires WaiterEnabled(s, x, act) && (act.ReadLen? || act.ReadWorking? || act.WaitSleep?)
    ensures Effort(StepWaiter(s, x, act)) < Effort(s)
  {
    var t := StepWaiter(s, x, act);
    WaiterTotalUpdate(s.waiters, x, t.waiters[x]);
    WaiterMoves(s, x, act);
    EffortSplits(s);
    EffortSplits(t);
  }

  /** A waiter's own step brings it closer to its sleep or its return, and moves nobody else. */
  lemma WaiterMoves(s: State, x: nat, act: WaiterAct)
    requires WaiterEnabled(s, x, act) && (act.ReadLen? || act.ReadWorking? || act.WaitSleep?)
    ensures var t := StepWaiter(s, x, act);
      && WaiterReading(t.waiters[x]) < WaiterReading(s.waiters[x])
      && t.waiters == s.waiters[x := t.waiters[x]]
      && t == s.(waiters := t.waiters, lock := t.lock)
  {
  }

  function PoolEffort(n: nat, m: nat, queued: nat, bit: bool, adding: bool, workers: seq<Phase>): nat {
    queued * JobCost(n, m) + (if bit then BitCost(m) else 0) + (if adding then PostCost(n, m) else 0)
    + Total(EffortMeter(n, m), workers)
  }

  lemma EffortSplits(s: State)
    ensures Effort(s) == PoolEffort(|s.workers|, |s.waiters|, |s.queue|, s.bit, s.mutex.HeldByAdder?, s.workers)
                         + WaiterTotal(s.waiters)
  {
  }

  lemma OwnStepCosts(s: State, l: Label)
    requires MutexOk(s) && Enabled(s, l) && OwnStep(l)
    ensures Effort(Step(s, l)) < Effort(s)
  {
    if l.Worker? {
      WorkerStepCosts(s, l.w, l.does);
    } else if l.Client? {
      AddPostCosts(s, l.asks.woken);
    } else {
      WaiterStepCosts(s, l.x, l.waits);
    }
  }

  /** No run of the pool's own steps is longer than the effort of the state it starts in. */
  lemma {:induction false} OwnRunsAreBounded(s: State, ls: seq<Label>)
    requires Inv(s) && ValidRun(s, ls) && OwnRun(ls)
    ensures |ls| + Effort(Exec(s, ls)) <= Effort(s)
    decreases |ls|
  {
    if ls != [] {
      OwnStepCosts(s, ls[0]);
      StepKeepsInv(s, ls[0]);
      OwnRunsAreBounded(Step(s, ls[0]), ls[1..]);
    }
  }

  lemma NextOwnStep(s: State) returns (l: Label)
    requires Inv(s) && !Quiescent(s)
    ensures OwnStep(l) && Enabled(s, l) && Inv(Step(s, l)) && Effort(Step(s, l)) < Effort(s)
  {
    l :| OwnStep(l) && Enabled(s, l);
    OwnStepCosts(s, l);
    StepKeepsInv(s, l);
  }

  lemma {:induction false} SomeOwnRunSettles(s: State) returns (ls: seq<Label>)
    requires Inv(s)
    ensures ValidRun(s, ls) && OwnRun(ls) && Quiescent(Exec(s, ls))
    decreases Effort(s)
  {
    if Quiescent(s) {
      ls := [];
    } else {
      var l := NextOwnStep(s);
      var rest := SomeOwnRunSettles(Step(s, l));
      Prepend(s, l, rest);
      ls := [l] + rest;
    }
  }

  // ---------- what a settled pool looks like ----------

  /** Any worker that is neither asleep nor gone could move, as could any waiter that is
      between its reads: so a settled pool has none, and no worker sleeps over a set bit. */
  lemma SettledShape(s: State)
    requires Inv(s) && Quiescent(s)
    ensures s.lock.CountFree? && s.mutex.QueueFree?
    ensures forall w :: 0 <= w < |s.workers| ==> s.workers[w].SemAsleep? || s.workers[w].Exited?
    ensures s.bit ==> forall w :: 0 <= w < |s.workers| ==> s.workers[w].Exited?
    ensures forall x :: 0 <= x < |s.waiters| ==>
              s.waiters[x].Outside? || s.waiters[x].Sleeping? || s.waiters[x].Returned?
  {
    forall x | 0 <= x < |s.waiters|
      ensures !s.waiters[x].LenZero? && !s.waiters[x].MustSleep?
      ensures s.lock.CountFree? ==> !s.waiters[x].Entering? && !s.waiters[x].Woken?
    {
      assert !Enabled(s, Waiter(x, ReadLen)) && !Enabled(s, Waiter(x, ReadWorking));
      assert !Enabled(s, Waiter(x, WaitSleep));
    }
    assert s.lock.CountFree?;
    assert !Enabled(s, Client(AddPost(Asleep(s.workers))));
    forall w | 0 <= w < |s.workers| ensures !s.workers[w].Reposting? {
      assert !Enabled(s, Worker(w, Repost(Asleep(s.workers))));
    }
    assert s.mutex.QueueFree?;
    forall w | 0 <= w < |s.workers|
      ensures s.workers[w].SemAsleep? || s.workers[w].Exited?
    {
      SettledWorker(s, w);
    }
  }

  lemma SettledWorker(s: State, w: nat)
    requires Inv(s) && Quiescent(s) && s.lock.CountFree? && s.mutex.QueueFree? && w < |s.workers|
    ensures s.workers[w].SemAsleep? || s.workers[w].Exited?
  {
    assert !Enabled(s, Worker(w, Start)) && !Enabled(s, Worker(w, Loop)) && !Enabled(s, Worker(w, SemTest));
    assert !Enabled(s, Worker(w, Keep)) && !Enabled(s, Worker(w, Count)) && !Enabled(s, Worker(w, PullJob));
    assert !Enabled(s, Worker(w, RunJob)) && !Enabled(s, Worker(w, Leave));
    var notified := if s.working == 1 then SleepingWaiters(s.waiters) else {};
    assert !Enabled(s, Worker(w, Uncount(notified)));
    assert !Enabled(s, Worker(w, Repost(Asleep(s.workers))));
  }

  /** Every added job is executed: however a live pool with at least one worker was driven so
      far, and however its own threads are scheduled from there, once they stop - which they
      do, by `OwnRunsAreBounded` - the queue is empty and every job ever added has finished. */
  lemma AllWorkGetsDone(n: nat, m: nat, before: seq<Label>, own: seq<Label>)
    requires n > 0 && ValidRun(Init(n, m), before)
    requires var s := Exec(Init(n, m), before); ValidRun(s, own) && OwnRun(own) && s.keepalive
    ensures var s := Exec(Init(n, m), before); var t := Exec(s, own);
      Quiescent(t) ==> t.queue == [] && forall j: nat :: j in t.finished <==> j < t.added
  {
    InitInv(n, m);
    RunKeepsInv(Init(n, m), before);
    RunKeepsSize(Init(n, m), before);
    var s := Exec(Init(n, m), before);
    RunKeepsInv(s, own);
    RunKeepsSize(s, own);
    OwnRunsKeepAlive(s, own);
    var t := Exec(s, own);
    if Quiescent(t) {
      SettledIsDone(t);
    }
  }

  lemma SettledIsDone(t: State)
    requires Inv(t) && Quiescent(t) && t.keepalive && |t.workers| > 0
    ensures t.queue == [] && t.working == 0 && forall j: nat :: j in t.finished <==> j < t.added
  {
    SettledShape(t);
    assert t.workers[0].SemAsleep?;
    assert t.queue == [];
    assert forall j: nat, w :: j < t.pulled && 0 <= w < |t.workers| ==> !Holds(t.workers[w], j);
    TotalExtremes(WorkingMeter, t.workers);
  }

  lemma {:induction false} OwnRunsKeepAlive(s: State, ls: seq<Label>)
    requires ValidRun(s, ls) && OwnRun(ls)
    ensures Exec(s, ls).keepalive == s.keepalive && Exec(s, ls).destroy == s.destroy
    decreases |ls|
  {
    if ls != [] {
      OwnStepKeepsFlags(s, ls[0]);
      OwnRunsKeepAlive(Step(s, ls[0]), ls[1..]);
    }
  }

  lemma OwnStepKeepsFlags(s: State, l: Label)
    requires Enabled(s, l) && OwnStep(l)
    ensures Step(s, l).keepalive == s.keepalive && Step(s, l).destroy == s.destroy
  {
  }
}
