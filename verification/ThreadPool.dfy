/** The thread pool as a state machine. One label is one mutex-protected block or one access
    to an unprotected volatile; a run is a sequence of labels, so every interleaving of any
    number of workers, clients and waiters is covered. Sleepers on a condition
    may also wake without a signal. */

module ThreadPool {
  import opened Conditions
  import opened JobQueues

  /** Where a worker is in `thread_do`. */
  datatype Phase =
    | Starting                // about to increment num_threads_alive
    | LoopTest                // about to read threads_keepalive at the loop head
    | SemEnter                // about to lock the semaphore and test its bit
    | SemAsleep               // blocked on the semaphore's condition
    | SemAwake                // woken, about to test the bit again
    | KeepTest                // owns the token, about to read threads_keepalive again
    | Counting                // owns the token, about to increment num_threads_working
    | Pulling                 // owns the token, about to pull
    | Reposting(job: nat)     // has pulled, still holds the queue mutex and owes a post
    | Running(job: nat)       // executing the job
    | Finishing               // about to decrement num_threads_working
    | Leaving                 // about to decrement num_threads_alive
    | Exited

  /** Where a caller of `thpool_wait` is. `LenZero` and `MustSleep` hold thcount_lock;
      `added` is how many jobs had been added when it last read an empty queue. */
  datatype WaiterPhase =
    | Outside
    | Entering
    | LenZero(added: nat)
    | MustSleep
    | Sleeping
    | Woken
    | Returned(added: nat)

  /** Where the caller of `thpool_destroy` is. */
  datatype DestroyPhase = NotCalled | Polling | MustPost | Clearing | Freed

  /** Who holds the queue mutex across more than one step. */
  datatype QueueMutex = QueueFree | HeldByAdder | HeldByWorker(worker: nat)

  datatype CountMutex = CountFree | HeldByWaiter(waiter: nat)

  /** Jobs are named by the order in which they were linked into the queue; `added`, `pulled`,
      `finished`, `discarded` and `late` are history that no step depends on. `late[w]` counts
      the jobs worker `w` took after threads_keepalive was cleared. */
  datatype State = State(
    keepalive: bool, ready: bool, alive: int, working: int,
    workers: seq<Phase>, queue: seq<nat>, bit: bool, mutex: QueueMutex,
    lock: CountMutex, waiters: seq<WaiterPhase>, destroy: DestroyPhase,
    added: nat, pulled: nat, finished: set<nat>, discarded: set<nat>, late: seq<nat>)

  datatype WorkerAct =
    | Start | Loop | SemTest | SemSpurious | Keep | Count | PullJob | Repost(woken: set<nat>)
    | RunJob | Uncount(notified: set<nat>) | Leave

  datatype ClientAct = InitDone | AddLink | AddPost(woken: set<nat>)

  datatype WaiterAct = WaitCall | ReadLen | ReadWorking | WaitSleep | WaitSpurious

  datatype DestroyAct = DestroyCall | DestroyPoll | DestroyPost | DestroyClear

  datatype Label =
    | Worker(w: nat, does: WorkerAct)
    | Client(asks: ClientAct)
    | Waiter(x: nat, waits: WaiterAct)
    | Destroyer(ends: DestroyAct)

  function Asleep(workers: seq<Phase>): set<nat> {
    set i | 0 <= i < |workers| && workers[i].SemAsleep?
  }

  function SleepingWaiters(waiters: seq<WaiterPhase>): set<nat> {
    set i | 0 <= i < |waiters| && waiters[i].Sleeping?
  }

  function Wake(workers: seq<Phase>, woken: set<nat>): (r: seq<Phase>)
    ensures |r| == |workers|
    ensures forall i :: 0 <= i < |r| ==> r[i] == if i in woken then SemAwake else workers[i]
  {
    seq(|workers|, i requires 0 <= i < |workers| => if i in woken then SemAwake else workers[i])
  }

  function Notify(waiters: seq<WaiterPhase>, notified: set<nat>): (r: seq<WaiterPhase>)
    ensures |r| == |waiters|
    ensures forall i :: 0 <= i < |r| ==> r[i] == if i in notified then Woken else waiters[i]
  {
    seq(|waiters|, i requires 0 <= i < |waiters| => if i in notified then Woken else waiters[i])
  }

  predicate WorkerEnabled(s: State, w: nat, act: WorkerAct) {
    && w < |s.workers|
    && var p := s.workers[w];
       match act
       case Start => p.Starting? && s.lock.CountFree?
       case Loop => p.LoopTest?
       case SemTest => p.SemEnter? || p.SemAwake?
       case SemSpurious => p.SemAsleep?
       case Keep => p.KeepTest?
       case Count => p.Counting? && s.lock.CountFree?
       case PullJob => p.Pulling? && s.mutex.QueueFree?
       case Repost(woken) => p.Reposting? && Signals(woken, Asleep(s.workers))
       case RunJob => p.Running?
       case Uncount(notified) =>
         && p.Finishing? && s.lock.CountFree?
         && (if s.working == 1 then Signals(notified, SleepingWaiters(s.waiters)) else notified == {})
       case Leave => p.Leaving? && s.lock.CountFree?
  }

  /** thpool_init returns once every worker counted itself; thpool_add_work may be called from
      then on until thpool_destroy has seen the last worker leave. */
  predicate ClientEnabled(s: State, act: ClientAct) {
    match act
    case InitDone => !s.ready && s.alive == |s.workers|
    case AddLink => s.ready && s.mutex.QueueFree? && !s.destroy.Clearing? && !s.destroy.Freed?
    case AddPost(woken) => s.mutex.HeldByAdder? && Signals(woken, Asleep(s.workers))
  }

  predicate WaiterEnabled(s: State, x: nat, act: WaiterAct) {
    && x < |s.waiters|
    && var p := s.waiters[x];
       match act
       case WaitCall => s.ready && s.destroy.NotCalled? && (p.Outside? || p.Returned?)
       case ReadLen => (p.Entering? || p.Woken?) && s.lock.CountFree?
       case ReadWorking => p.LenZero?
       case WaitSleep => p.MustSleep?
       case WaitSpurious => p.Sleeping?
  }

  predicate DestroyEnabled(s: State, act: DestroyAct) {
    match act
    case DestroyCall => s.ready && s.destroy.NotCalled?
    case DestroyPoll => s.destroy.Polling?
    case DestroyPost => s.destroy.MustPost?
    case DestroyClear => s.destroy.Clearing? && s.mutex.QueueFree?
  }

  predicate Enabled(s: State, l: Label) {
    && |s.late| == |s.workers|
    && match l
       case Worker(w, act) => WorkerEnabled(s, w, act)
       case Client(act) => ClientEnabled(s, act)
       case Waiter(x, act) => WaiterEnabled(s, x, act)
       case Destroyer(act) => DestroyEnabled(s, act)
  }

  function Move(s: State, w: nat, p: Phase): State
    requires w < |s.workers|
  {
    s.(workers := s.workers[w := p])
  }

  function MoveWaiter(s: State, x: nat, p: WaiterPhase): State
    requires x < |s.waiters|
  {
    s.(waiters := s.waiters[x := p])
  }

  function StepWorker(s: State, w: nat, act: WorkerAct): (r: State)
    requires WorkerEnabled(s, w, act) && |s.late| == |s.workers|
    ensures |r.workers| == |s.workers| && |r.waiters| == |s.waiters| && |r.late| == |s.late|
  {
    match act
    case Start => Move(s, w, LoopTest).(alive := s.alive + 1)
    case Loop => Move(s, w, if s.keepalive then SemEnter else Leaving)
    case SemTest => if s.bit then Move(s, w, KeepTest).(bit := false) else Move(s, w, SemAsleep)
    case SemSpurious => Move(s, w, SemAwake)
    case Keep => Move(s, w, if s.keepalive then Counting else LoopTest)
    case Count => Move(s, w, Pulling).(working := s.working + 1)
    case PullJob => StepPull(s, w)
    case Repost(woken) =>
      s.(workers := Wake(s.workers, woken)[w := Running(s.workers[w].job)],
         bit := true, mutex := QueueFree)
    case RunJob => Move(s, w, Finishing).(finished := s.finished + {s.workers[w].job})
    case Uncount(notified) =>
      Move(s, w, LoopTest).(working := s.working - 1, waiters := Notify(s.waiters, notified))
    case Leave => Move(s, w, Exited).(alive := s.alive - 1)
  }

  function StepClient(s: State, act: ClientAct): (r: State)
    requires ClientEnabled(s, act)
    ensures |r.workers| == |s.workers| && |r.waiters| == |s.waiters| && |r.late| == |s.late|
  {
    match act
    case InitDone => s.(ready := true)
    case AddLink => s.(queue := Push(s.queue, s.added), added := s.added + 1, mutex := HeldByAdder)
    case AddPost(woken) => s.(workers := Wake(s.workers, woken), bit := true, mutex := QueueFree)
  }

  function StepWaiter(s: State, x: nat, act: WaiterAct): (r: State)
    requires WaiterEnabled(s, x, act)
    ensures |r.workers| == |s.workers| && |r.waiters| == |s.waiters| && |r.late| == |s.late|
  {
    match act
    case WaitCall => MoveWaiter(s, x, Entering)
    case ReadLen =>
      MoveWaiter(s, x, if |s.queue| == 0 then LenZero(s.added) else MustSleep).(lock := HeldByWaiter(x))
    case ReadWorking =>
      if s.working != 0 then MoveWaiter(s, x, MustSleep)
      else MoveWaiter(s, x, Returned(s.waiters[x].added)).(lock := CountFree)
    case WaitSleep => MoveWaiter(s, x, Sleeping).(lock := CountFree)
    case WaitSpurious => MoveWaiter(s, x, Woken)
  }

  function StepDestroy(s: State, act: DestroyAct): (r: State)
    requires DestroyEnabled(s, act)
    ensures |r.workers| == |s.workers| && |r.waiters| == |s.waiters| && |r.late| == |s.late|
  {
    match act
    case DestroyCall => s.(keepalive := false, destroy := Polling)
    case DestroyPoll => s.(destroy := if s.alive != 0 then MustPost else Clearing)
    case DestroyPost =>
      s.(workers := Wake(s.workers, Asleep(s.workers)), bit := true, destroy := Polling)
    case DestroyClear =>
      s.(queue := [], bit := false, destroy := Freed, discarded := set j | j in s.queue)
  }

  function Step(s: State, l: Label): (r: State)
    requires Enabled(s, l)
    ensures |r.workers| == |s.workers| && |r.waiters| == |s.waiters| && |r.late| == |s.late|
  {
    match l
    case Worker(w, act) => StepWorker(s, w, act)
    case Client(act) => StepClient(s, act)
    case Waiter(x, act) => StepWaiter(s, x, act)
    case Destroyer(act) => StepDestroy(s, act)
  }

  /** The pull of one worker, with the three cases of `jobqueue_pull`. */
  function StepPull(s: State, w: nat): (r: State)
    requires w < |s.workers| == |s.late|
    ensures |r.workers| == |s.workers| && |r.waiters| == |s.waiters| && |r.late| == |s.late|
  {
    match Pull(s.queue)
    case Nothing => Move(s, w, Finishing)
    case Taken(j, rest, repost) =>
      s.(workers := s.workers[w := if repost then Reposting(j) else Running(j)],
         mutex := if repost then HeldByWorker(w) else s.mutex,
         queue := rest, pulled := s.pulled + 1,
         late := if s.keepalive then s.late else s.late[w := s.late[w] + 1])
  }

  /** The pool right after its mutexes exist, with `n` threads created and room for `m`
      concurrent callers of `thpool_wait`. */
  function Init(n: nat, m: nat): State {
    State(true, false, 0, 0, seq(n, _ => Starting), [], false, QueueFree, CountFree,
          seq(m, _ => Outside), NotCalled, 0, 0, {}, {}, seq(n, _ => 0))
  }

  predicate ValidRun(s: State, ls: seq<Label>)
    decreases |ls|
  {
    ls != [] ==> Enabled(s, ls[0]) && ValidRun(Step(s, ls[0]), ls[1..])
  }

  function Exec(s: State, ls: seq<Label>): State
    requires ValidRun(s, ls)
    decreases |ls|
  {
    if ls == [] then s else Exec(Step(s, ls[0]), ls[1..])
  }

  lemma {:induction false} RunsCompose(s: State, a: seq<Label>, b: seq<Label>)
    requires ValidRun(s, a) && ValidRun(Exec(s, a), b)
    ensures ValidRun(s, a + b) && Exec(s, a + b) == Exec(Exec(s, a), b)
    decreases |a|
  {
    if a == [] {
      assert a + b == b;
    } else {
      RunsCompose(Step(s, a[0]), a[1..], b);
      assert (a + b)[1..] == a[1..] + b;
    }
  }

  lemma Extend(s: State, a: seq<Label>, l: Label) returns (b: seq<Label>)
    requires ValidRun(s, a) && Enabled(Exec(s, a), l)
    ensures b == a + [l] && ValidRun(s, b) && Exec(s, b) == Step(Exec(s, a), l)
  {
    b := a + [l];
    var t := Exec(s, a);
    var one := [l];
    assert one[1..] == [] && ValidRun(t, one);
    assert Exec(t, one) == Exec(Step(t, one[0]), one[1..]);
    RunsCompose(s, a, [l]);
  }

  lemma Prepend(s: State, l: Label, rest: seq<Label>)
    requires Enabled(s, l) && ValidRun(Step(s, l), rest)
    ensures ValidRun(s, [l] + rest) && Exec(s, [l] + rest) == Exec(Step(s, l), rest)
  {
    assert ([l] + rest)[1..] == rest;
  }

  // ---------- counting workers by phase ----------

  /** `Effort` weighs how much a worker may still do before it blocks or exits, in a pool of
      `n` workers and `m` waiters. */
  datatype Meter = AliveMeter | WorkingMeter | EffortMeter(n: nat, m: nat)

  predicate IsAlive(p: Phase) { !p.Starting? && !p.Exited? }

  predicate IsWorking(p: Phase) { p.Pulling? || p.Reposting? || p.Running? || p.Finishing? }

  function Reading(meter: Meter, p: Phase): nat {
    match meter
    case AliveMeter => if IsAlive(p) then 1 else 0
    case WorkingMeter => if IsWorking(p) then 1 else 0
    case EffortMeter(n, m) =>
      match p
      case Exited => 0
      case SemAsleep => 0
      case Leaving => 1
      case SemEnter => 1
      case SemAwake => 1
      case LoopTest => 2
      case Starting => 3
      case Finishing => 3 + 3 * m
      case Running(_) => 4 + 3 * m
      case Reposting(_) => 13 + n + 6 * m
      case Pulling => 6 + 3 * m
      case Counting => 7 + 3 * m
      case KeepTest => 8 + 3 * m
  }

  function Total(meter: Meter, workers: seq<Phase>): nat {
    if workers == [] then 0 else Reading(meter, workers[0]) + Total(meter, workers[1..])
  }

  lemma {:induction false} TotalUpdate(meter: Meter, workers: seq<Phase>, w: nat, p: Phase)
    requires w < |workers|
    ensures Total(meter, workers[w := p]) + Reading(meter, workers[w]) ==
            Total(meter, workers) + Reading(meter, p)
  {
    if w == 0 {
      assert workers[w := p][1..] == workers[1..];
    } else {
      TotalUpdate(meter, workers[1..], w - 1, p);
      assert workers[w := p][1..] == workers[1..][w - 1 := p];
    }
  }

  /** Waking sleepers changes neither counter, and costs at most one unit of effort each. */
  lemma {:induction false} TotalWake(meter: Meter, old_: seq<Phase>, new_: seq<Phase>)
    requires |old_| == |new_|
    requires forall i :: 0 <= i < |old_| ==>
               new_[i] == old_[i] || (old_[i].SemAsleep? && new_[i].SemAwake?)
    ensures Total(meter, old_) <= Total(meter, new_) <= Total(meter, old_) + |old_|
    ensures !meter.EffortMeter? ==> Total(meter, new_) == Total(meter, old_)
  {
    if old_ != [] {
      TotalWake(meter, old_[1..], new_[1..]);
    }
  }

  /** A total is zero exactly when no worker contributes, and full when every worker does. */
  lemma {:induction false} TotalExtremes(meter: Meter, workers: seq<Phase>)
    requires !meter.EffortMeter?
    ensures Total(meter, workers) == 0 <==> forall i :: 0 <= i < |workers| ==> Reading(meter, workers[i]) == 0
    ensures Total(meter, workers) <= |workers|
    ensures Total(meter, workers) == |workers| <==>
              forall i :: 0 <= i < |workers| ==> Reading(meter, workers[i]) == 1
  {
    if workers != [] {
      TotalExtremes(meter, workers[1..]);
      assert forall i :: 1 <= i < |workers| ==> workers[i] == workers[1..][i - 1];
      assert forall i :: 0 <= i < |workers| - 1 ==> workers[1..][i] == workers[i + 1];
    }
  }
}
