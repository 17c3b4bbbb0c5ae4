/** How long a user request waits behind refresh transactions and earlier requests, with one
    processing thread. */

module Scheduling {
  import opened ReadyQueues
  import opened Server
  import opened Handshake

  /** Request `r` is queued with exactly `k` user requests ahead of it. */
  predicate QueuedAt(s: State, r: nat, k: nat) {
    k < |s.userQueue| && s.userQueue[k].request == r
  }

  predicate NoShutdown(ls: seq<Label>) {
    forall i :: 0 <= i < |ls| ==> !(ls[i].Proc? && ls[i].does == Clock(true))
  }

  /** The step takes a refresh transaction from its queue. */
  predicate TakesRefresh(s: State, l: Label) {
    && l.Proc? && l.does.DrainNext? && l.p < |s.procs|
    && ((s.procs[l.p].DrainWait? && !s.die) || (s.procs[l.p].Drain? && s.procs[l.p].n > 0))
    && s.refreshQueue > 0
  }

  predicate TakesUser(s: State, l: Label) {
    && l.Proc? && l.does.DequeueUser? && l.p < |s.procs|
    && !(s.procs[l.p].TakeWait? && s.die) && s.userQueue != []
  }

  /** How many steps of each kind a run takes. */
  datatype Tally = Tally(refreshes: nat, users: nat, steps: nat)

  function Count(s: State, ls: seq<Label>): Tally
    requires ValidRun(s, ls)
    decreases |ls|
  {
    if ls == [] then Tally(0, 0, 0)
    else
      var rest := Count(Step(s, ls[0]), ls[1..]);
      Tally(rest.refreshes + (if TakesRefresh(s, ls[0]) then 1 else 0),
            rest.users + (if TakesUser(s, ls[0]) then 1 else 0),
            rest.steps + (if ls[0].Proc? then 1 else 0))
  }

  /** Refresh transactions the thread can still take before it looks at the user queue. */
  function RefreshesAhead(f: ProcPhase, capacity: nat): nat {
    match f
    case Drain(n) => n
    case Refreshing(n) => n
    case CheckUser => 0
    case TakeUser => 0
    case _ => capacity
  }

  /** Steps the thread can still take up to and including the next user dequeue. */
  function StepsAhead(f: ProcPhase, capacity: nat): nat {
    match f
    case TakeUser => 1
    case CheckUser => 2
    case Drain(n) => 2 * n + 3
    case Refreshing(n) => 2 * n + 4
    case Snapshot => 2 * capacity + 4
    case LoopHead => 2 * capacity + 5
    case CheckTime => 2 * capacity + 6
    case MarkDone(_) => 2 * capacity + 7
    case Stored(_) => 2 * capacity + 8
    case _ => 2 * capacity + 9
  }

  /** The cost of one earlier user request: a full drain and the steps of one round. */
  function RoundSteps(capacity: nat): nat { 2 * capacity + 9 }

  function RefreshBudget(s: State, k: nat): nat
    requires |s.procs| == 1
  {
    RefreshesAhead(s.procs[0], s.capacity) + k * s.capacity
  }

  function StepBudget(s: State, k: nat): nat
    requires |s.procs| == 1
  {
    StepsAhead(s.procs[0], s.capacity) + k * RoundSteps(s.capacity)
  }

  /** One step of the thread uses up its share of what lies ahead of a request that stays
      queued. */
  lemma ProcStepProgress(s: State, act: ProcAct, r: nat, k: nat)
    requires ProcOk(s) && |s.procs| == 1 && !s.die && ProcEnabled(s, 0, act) && act != Clock(true)
    requires QueuedAt(s, r, k) && !(act.DequeueUser? && k == 0)
    ensures var t := StepProc(s, 0, act); var l := Proc(0, act);
      && var taken := if TakesUser(s, l) then 1 else 0;
      && k >= taken && QueuedAt(t, r, k - taken) && !t.die && |t.procs| == 1 && t.capacity == s.capacity
      && RefreshBudget(t, k - taken) + (if TakesRefresh(s, l) then 1 else 0) <= RefreshBudget(s, k)
      && StepBudget(t, k - taken) + 1 <= StepBudget(s, k)
  {
    if act.DequeueUser? {
      var t := StepProc(s, 0, act);
      assert t.userQueue[k - 1] == s.userQueue[k];
      assert (k - 1) * s.capacity == k * s.capacity - s.capacity;
      assert (k - 1) * RoundSteps(s.capacity) == k * RoundSteps(s.capacity) - RoundSteps(s.capacity);
    }
  }

  lemma OtherStepProgress(s: State, l: Label, r: nat, k: nat)
    requires |s.procs| == 1 && !s.die && Enabled(s, l) && !l.Proc? && QueuedAt(s, r, k)
    ensures var t := Step(s, l); QueuedAt(t, r, k) && t.procs == s.procs && !t.die && t.capacity == s.capacity
  {
  }

  /** The run never takes request `r` from the queue. */
  predicate StaysQueued(s: State, ls: seq<Label>, r: nat)
    requires ValidRun(s, ls)
    decreases |ls|
  {
    ls != [] ==>
      && !(TakesUser(s, ls[0]) && s.userQueue[0].request == r)
      && StaysQueued(Step(s, ls[0]), ls[1..], r)
  }

  /** One step of a run in which request `r` stays queued. */
  lemma StepWithinBudgets(s: State, l: Label, r: nat, k: nat)
    requires Inv(s) && |s.procs| == 1 && !s.die && Enabled(s, l) && l != Proc(0, Clock(true))
    requires QueuedAt(s, r, k) && !(TakesUser(s, l) && s.userQueue[0].request == r)
    ensures var t := Step(s, l); var left := k - if TakesUser(s, l) then 1 else 0;
      && Inv(t) && |t.procs| == 1 && !t.die && t.capacity == s.capacity
      && left >= 0 && QueuedAt(t, r, left)
      && RefreshBudget(t, left) + (if TakesRefresh(s, l) then 1 else 0) <= RefreshBudget(s, k)
      && StepBudget(t, left) + (if l.Proc? then 1 else 0) <= StepBudget(s, k)
  {
    StepKeepsInv(s, l);
    if l.Proc? {
      ProcStepProgress(s, l.does, r, k);
    } else {
      OtherStepProgress(s, l, r, k);
    }
  }

  /** Request `r`, at position `k` before the run, is still queued after it: then exactly the
      requests that left the queue were ahead of it, and refreshes and thread steps are
      covered by what was ahead. */
  lemma {:induction false} Budgets(s: State, ls: seq<Label>, r: nat, k: nat) returns (left: nat)
    requires Inv(s) && |s.procs| == 1 && !s.die && ValidRun(s, ls) && NoShutdown(ls)
    requires QueuedAt(s, r, k) && StaysQueued(s, ls, r)
    ensures var t := Exec(s, ls);
      && Inv(t) && |t.procs| == 1 && !t.die && t.capacity == s.capacity
      && left <= k && QueuedAt(t, r, left) && Count(s, ls).users == k - left
      && Count(s, ls).refreshes + RefreshBudget(t, left) <= RefreshBudget(s, k)
      && Count(s, ls).steps + StepBudget(t, left) <= StepBudget(s, k)
    decreases |ls|
  {
    if ls == [] {
      left := k;
    } else {
      var l := ls[0];
      StepWithinBudgets(s, l, r, k);
      assert NoShutdown(ls[1..]);
      left := Budgets(Step(s, l), ls[1..], r, k - if TakesUser(s, l) then 1 else 0);
    }
  }

  /** Bounded delay: in any run without shutdown, a user request with `k` requests ahead of it
      sees at most `k` earlier user requests and `(k + 1) * capacity` refresh transactions
      taken while it waits, and the processing thread takes fewer than
      `(k + 1) * RoundSteps(capacity)` steps before it takes the request itself. */
  lemma BoundedDelay(m: nat, capacity: nat, before: seq<Label>, ls: seq<Label>, r: nat, k: nat)
    requires ValidRun(Init(1, m, capacity), before)
    requires var s := Exec(Init(1, m, capacity), before);
      !s.die && QueuedAt(s, r, k) && ValidRun(s, ls) && NoShutdown(ls) && StaysQueued(s, ls, r)
    ensures var c := Count(Exec(Init(1, m, capacity), before), ls);
      c.users <= k && c.refreshes <= (k + 1) * capacity && c.steps < (k + 1) * RoundSteps(capacity)
  {
    var i := Init(1, m, capacity);
    InitInv(1, m, capacity);
    RunKeepsInv(i, before);
    RunKeepsShape(i, before);
    var s := Exec(i, before);
    var left := Budgets(s, ls, r, k);
    FullBudgets(s, k);
    FullBudgets(Exec(s, ls), left);
  }

  // ---------- from the queue to the answer ----------

  /** Steps of the thread between taking a request and setting its `txn_done`. */
  function ServiceSteps(f: ProcPhase): nat {
    if f.Serve? then 3 else if f.Stored? then 2 else 1
  }

  /** Request `r` is answered, or will be within `b` steps of the thread. */
  ghost predicate AnsweredWithin(s: State, r: nat, b: int) {
    && |s.procs| == 1 && !s.die
    && (|| (r < |s.replies| && s.replies[r].done)
        || (Serving(s.procs[0]) && s.procs[0].e.request == r && ServiceSteps(s.procs[0]) <= b)
        || exists k: nat :: QueuedAt(s, r, k) && StepBudget(s, k) + 3 <= b)
  }

  lemma ServiceProgress(s: State, act: ProcAct, r: nat)
    requires Inv(s) && |s.procs| == 1 && !s.die && ProcEnabled(s, 0, act)
    requires Serving(s.procs[0]) && s.procs[0].e.request == r
    ensures AnsweredWithin(StepProc(s, 0, act), r, ServiceSteps(s.procs[0]) - 1)
  {
  }

  lemma TakenNow(s: State, r: nat)
    requires ProcOk(s) && |s.procs| == 1 && !s.die && ProcEnabled(s, 0, DequeueUser) && QueuedAt(s, r, 0)
    ensures AnsweredWithin(StepProc(s, 0, DequeueUser), r, 3)
  {
  }

  lemma ProcKeepsPromise(s: State, act: ProcAct, r: nat, b: int)
    requires Inv(s) && AnsweredWithin(s, r, b) && ProcEnabled(s, 0, act) && act != Clock(true)
    ensures AnsweredWithin(StepProc(s, 0, act), r, b - 1)
  {
    if r < |s.replies| && s.replies[r].done {
      StepKeepsDone(s, Proc(0, act), r);
    } else if Serving(s.procs[0]) && s.procs[0].e.request == r {
      ServiceProgress(s, act, r);
    } else {
      var k: nat :| QueuedAt(s, r, k) && StepBudget(s, k) + 3 <= b;
      if act.DequeueUser? && k == 0 {
        TakenNow(s, r);
        FullBudgets(s, 0);
      } else {
        ProcStepProgress(s, act, r, k);
        assert QueuedAt(StepProc(s, 0, act), r, k - if TakesUser(s, Proc(0, act)) then 1 else 0);
      }
    }
  }

  lemma OtherKeepsPromise(s: State, l: Label, r: nat, b: int)
    requires Inv(s) && AnsweredWithin(s, r, b) && Enabled(s, l) && !l.Proc?
    ensures AnsweredWithin(Step(s, l), r, b)
  {
    if r < |s.replies| && s.replies[r].done {
      StepKeepsDone(s, l, r);
    } else if !(Serving(s.procs[0]) && s.procs[0].e.request == r) {
      var k: nat :| QueuedAt(s, r, k) && StepBudget(s, k) + 3 <= b;
      OtherStepProgress(s, l, r, k);
    }
  }

  lemma {:induction false} RunKeepsPromise(s: State, ls: seq<Label>, r: nat, b: int)
    requires Inv(s) && AnsweredWithin(s, r, b) && ValidRun(s, ls) && NoShutdown(ls)
    ensures AnsweredWithin(Exec(s, ls), r, b - Count(s, ls).steps) && Inv(Exec(s, ls))
    decreases |ls|
  {
    if ls != [] {
      var l := ls[0];
      StepKeepsInv(s, l);
      assert NoShutdown(ls[1..]);
      if l.Proc? {
        ProcKeepsPromise(s, l.does, r, b);
        RunKeepsPromise(Step(s, l), ls[1..], r, b - 1);
      } else {
        OtherKeepsPromise(s, l, r, b);
        RunKeepsPromise(Step(s, l), ls[1..], r, b);
      }
    }
  }

  /** Bounded response: in any run without shutdown a user request with `k` requests ahead of
      it is answered once the processing thread has taken `(k + 1) * RoundSteps(capacity) + 3`
      steps. */
  lemma BoundedResponse(m: nat, capacity: nat, before: seq<Label>, ls: seq<Label>, r: nat, k: nat)
    requires ValidRun(Init(1, m, capacity), before)
    requires var s := Exec(Init(1, m, capacity), before);
      !s.die && QueuedAt(s, r, k) && ValidRun(s, ls) && NoShutdown(ls)
    ensures var s := Exec(Init(1, m, capacity), before); var t := Exec(s, ls);
      Count(s, ls).steps >= (k + 1) * RoundSteps(capacity) + 3 ==> r < |t.replies| && t.replies[r].done
  {
    var i := Init(1, m, capacity);
    InitInv(1, m, capacity);
    RunKeepsInv(i, before);
    RunKeepsShape(i, before);
    var s := Exec(i, before);
    var b := (k + 1) * RoundSteps(capacity) + 3;
    FullBudgets(s, k);
    assert AnsweredWithin(s, r, b);
    RunKeepsPromise(s, ls, r, b);
    if Count(s, ls).steps >= b {
      NothingLeft(Exec(s, ls), r, b - Count(s, ls).steps);
    }
  }

  lemma NothingLeft(t: State, r: nat, b: int)
    requires Inv(t) && AnsweredWithin(t, r, b) && b <= 0
    ensures r < |t.replies| && t.replies[r].done
  {
    if k: nat :| QueuedAt(t, r, k) && StepBudget(t, k) + 3 <= b {
      FullBudgets(t, k);
    }
  }

  lemma FullBudgets(s: State, k: nat)
    requires Inv(s) && |s.procs| == 1
    ensures RefreshBudget(s, k) <= (k + 1) * s.capacity
    ensures 0 < StepBudget(s, k) <= (k + 1) * RoundSteps(s.capacity)
  {
    var c, d := s.capacity, RoundSteps(s.capacity);
    assert (k + 1) * c == k * c + c;
    assert (k + 1) * d == k * d + d;
    assert RefreshesAhead(s.procs[0], c) <= c;
    assert 0 < StepsAhead(s.procs[0], c) <= d;
    assert k * d >= 0;
  }

  lemma {:induction false} RunKeepsShape(s: State, ls: seq<Label>)
    requires ValidRun(s, ls)
    ensures |Exec(s, ls).procs| == |s.procs| && Exec(s, ls).capacity == s.capacity
    decreases |ls|
  {
    if ls != [] {
      RunKeepsShape(Step(s, ls[0]), ls[1..]);
    }
  }

  /** Until the shutdown the processing thread is never blocked: its snapshot of the refresh
      queue and its look at the user queue stay valid, so one of its steps is always enabled
      and none of them waits inside a dequeue. */
  lemma NeverBlocked(m: nat, capacity: nat, ls: seq<Label>)
    requires ValidRun(Init(1, m, capacity), ls) && !Exec(Init(1, m, capacity), ls).die
    ensures var s := Exec(Init(1, m, capacity), ls);
      && |s.procs| == 1 && !s.procs[0].DrainWait? && !s.procs[0].TakeWait?
      && exists act :: ProcEnabled(s, 0, act)
  {
    InitInv(1, m, capacity);
    RunKeepsInv(Init(1, m, capacity), ls);
    RunKeepsShape(Init(1, m, capacity), ls);
    var s := Exec(Init(1, m, capacity), ls);
    var act := match s.procs[0]
      case LoopHead => ReadDie
      case Snapshot => ReadRefreshSize
      case Refreshing(_) => RefreshDone
      case CheckUser => ReadUserSize
      case TakeUser => DequeueUser
      case Serve(_) => Fail
      case Stored(_) => ReadRc
      case MarkDone(_) => SetDone
      case CheckTime => Clock(false)
      case _ => DrainNext;
    assert ProcEnabled(s, 0, act);
  }

  // ---------- refresh transactions go first ----------

  /** User requests the thread can still take before it takes the refresh transaction that has
      `k` others ahead of it: one, unless the present or the next snapshot covers it first. */
  function UsersFirst(f: ProcPhase, k: nat): nat {
    match f
    case Drain(n) => if n > k then 0 else 1
    case Refreshing(n) => if n > k then 0 else 1
    case CheckUser => 1
    case TakeUser => 1
    case _ => 0
  }

  /** Steps of the thread up to and including that take. */
  function StepsFirst(f: ProcPhase, k: nat): nat {
    match f
    case Drain(n) => if n > k then 2 * k + 1 else 2 * k + 10
    case Refreshing(n) => if n > k then 2 * k + 2 else 2 * k + 11
    case CheckUser => 2 * k + 9
    case TakeUser => 2 * k + 8
    case Serve(_) => 2 * k + 7
    case Stored(_) => 2 * k + 6
    case MarkDone(_) => 2 * k + 5
    case CheckTime => 2 * k + 4
    case LoopHead => 2 * k + 3
    case _ => 2 * k + 2
  }

  /** One step while `k` refresh transactions are ahead of the one that waits. */
  lemma StepGoesFirst(s: State, act: ProcAct, k: nat)
    requires ProcOk(s) && |s.procs| == 1 && !s.die && ProcEnabled(s, 0, act) && act != Clock(true)
    requires k < s.refreshQueue && (k > 0 || !TakesRefresh(s, Proc(0, act)))
    ensures var t := StepProc(s, 0, act); var l := Proc(0, act);
      var left := k - if TakesRefresh(s, l) then 1 else 0;
      && left < t.refreshQueue && |t.procs| == 1 && !t.die
      && UsersFirst(t.procs[0], left) + (if TakesUser(s, l) then 1 else 0) <= UsersFirst(s.procs[0], k)
      && StepsFirst(t.procs[0], left) + 1 <= StepsFirst(s.procs[0], k)
  {
  }

  lemma OthersLeaveFirst(s: State, l: Label)
    requires Enabled(s, l) && !l.Proc?
    ensures var t := Step(s, l);
      t.procs == s.procs && t.die == s.die && t.refreshQueue >= s.refreshQueue
      && !TakesRefresh(s, l) && !TakesUser(s, l)
  {
  }

  lemma {:induction false} RunGoesFirst(s: State, ls: seq<Label>, k: nat)
    requires Inv(s) && |s.procs| == 1 && !s.die && ValidRun(s, ls) && NoShutdown(ls)
    requires k < s.refreshQueue && Count(s, ls).refreshes <= k
    ensures Count(s, ls).users <= UsersFirst(s.procs[0], k)
    ensures Count(s, ls).steps < StepsFirst(s.procs[0], k)
    decreases |ls|
  {
    if ls != [] {
      var l := ls[0];
      StepKeepsInv(s, l);
      assert NoShutdown(ls[1..]);
      if l.Proc? {
        StepGoesFirst(s, l.does, k);
      } else {
        OthersLeaveFirst(s, l);
      }
      RunGoesFirst(Step(s, l), ls[1..], k - if TakesRefresh(s, l) then 1 else 0);
    }
  }

  /** Refresh transactions have priority: one with `k` others ahead of it is taken after at most
      one user request, and within `2 * k + 11` steps of the thread. */
  lemma RefreshesGoFirst(m: nat, capacity: nat, before: seq<Label>, ls: seq<Label>, k: nat)
    requires ValidRun(Init(1, m, capacity), before)
    requires var s := Exec(Init(1, m, capacity), before);
      !s.die && k < s.refreshQueue && ValidRun(s, ls) && NoShutdown(ls)
    ensures var c := Count(Exec(Init(1, m, capacity), before), ls);
      c.users > 1 || c.steps >= 2 * k + 11 ==> c.refreshes > k
  {
    var i := Init(1, m, capacity);
    InitInv(1, m, capacity);
    RunKeepsInv(i, before);
    RunKeepsShape(i, before);
    var s := Exec(i, before);
    if Count(s, ls).refreshes <= k {
      RunGoesFirst(s, ls, k);
    }
  }

  // ---------- what the counts count ----------

  function RefreshArrivals(ls: seq<Label>): nat {
    if ls == [] then 0 else (if ls[0].RefreshArrives? then 1 else 0) + RefreshArrivals(ls[1..])
  }

  lemma BalanceOfStep(s: State, l: Label)
    requires Enabled(s, l)
    ensures var t := Step(s, l);
      && t.refreshQueue + (if TakesRefresh(s, l) then 1 else 0)
         == s.refreshQueue + (if l.RefreshArrives? then 1 else 0)
      && t.tickets - |t.userQueue| == s.tickets - |s.userQueue| + (if TakesUser(s, l) then 1 else 0)
  {
    match l
    case Proc(p, act) => BalanceOfProc(s, p, act);
    case Handler(h, act) => BalanceOfHandler(s, h, act);
    case RefreshArrives =>
  }

  lemma BalanceOfProc(s: State, p: nat, act: ProcAct)
    requires ProcEnabled(s, p, act)
    ensures var t := StepProc(s, p, act);
      && t.refreshQueue + (if TakesRefresh(s, Proc(p, act)) then 1 else 0) == s.refreshQueue
      && t.tickets == s.tickets
      && |t.userQueue| + (if TakesUser(s, Proc(p, act)) then 1 else 0) == |s.userQueue|
  {
  }

  lemma BalanceOfHandler(s: State, h: nat, act: HandlerAct)
    requires HandlerEnabled(s, h, act)
    ensures var t := StepHandler(s, h, act);
      t.refreshQueue == s.refreshQueue && t.tickets - |t.userQueue| == s.tickets - |s.userQueue|
  {
  }

  /** The counted takes account for both queues: what came in is taken or still queued. */
  lemma {:induction false} CountsBalance(s: State, ls: seq<Label>)
    requires ValidRun(s, ls)
    ensures var t := Exec(s, ls); var c := Count(s, ls);
      && t.refreshQueue + c.refreshes == s.refreshQueue + RefreshArrivals(ls)
      && |t.userQueue| + c.users == |s.userQueue| + (t.tickets - s.tickets)
    decreases |ls|
  {
    if ls != [] {
      BalanceOfStep(s, ls[0]);
      CountsBalance(Step(s, ls[0]), ls[1..]);
    }
  }
}
