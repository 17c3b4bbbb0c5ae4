/** The request path of the server as a state machine: handler threads that enqueue pointers
    to their own stack cells and poll them, and processing threads that drain a snapshot of
    the refresh queue, serve at most one user transaction, and watch the clock. One label is
    one queue operation or one access to a shared volatile. */

module Server {
  import opened ReadyQueues

  const SUCCESS := 0
  const FAIL := 1

  /** The reply cells of one call of `dispatchTableFn`; they are dead once it returns. `owner`
      is the handler that made the call. */
  datatype Reply = Reply(owner: nat, live: bool, done: bool, rc: int)

  datatype Report = Reported(rc: int) | NotEnqueued

  /** Where a handler is; `r` numbers the call of `dispatchTableFn`. */
  datatype HandlerPhase =
    | Between                      // not inside dispatchTableFn, nothing dispatched yet
    | Enqueueing(r: nat)           // first look at the user queue
    | QueueFull(r: nat)            // has waited for a free slot
    | PollDone(r: nat)             // about to read txn_done
    | PollDie(r: nat)              // read txn_done as 0, about to read time_to_die
    | Leaving(r: nat)              // left the loop, about to copy txn_rc
    | Returned(r: nat, report: Report)

  /** Where a processing thread is. */
  datatype ProcPhase =
    | LoopHead                     // about to read time_to_die
    | Snapshot                     // about to read the size of the refresh queue
    | Drain(n: nat)                // `n` refresh transactions of the snapshot are left
    | DrainWait(n: nat)            // blocked in a dequeue of the refresh queue
    | Refreshing(n: nat)           // executing one refresh transaction
    | CheckUser                    // about to read the size of the user queue
    | TakeUser                     // about to dequeue a user transaction
    | TakeWait                     // blocked in that dequeue
    | Serve(e: Info)               // executing a user transaction
    | Stored(e: Info)              // stored its result, about to read it back for the statistics
    | MarkDone(e: Info)            // about to set txn_done
    | CheckTime                    // about to look at the clock
    | Stopped

  /** `outcome` is history: the result computed for each request that got that far. */
  datatype State = State(
    procs: seq<ProcPhase>, handlers: seq<HandlerPhase>, capacity: nat,
    userQueue: seq<Info>, tickets: nat, refreshQueue: nat, die: bool,
    replies: seq<Reply>, outcome: map<nat, int>)

  datatype ProcAct =
    | ReadDie | ReadRefreshSize | DrainNext | RefreshDone | ReadUserSize | DequeueUser
    | StoreRc(result: int) | Fail | ReadRc | SetDone | Clock(expired: bool)

  datatype HandlerAct = Dispatch | Enqueue(stamp: int) | LookDone | LookDie | CopyRc

  datatype Label = Proc(p: nat, does: ProcAct) | Handler(h: nat, acts: HandlerAct) | RefreshArrives

  predicate ProcEnabled(s: State, p: nat, act: ProcAct) {
    && p < |s.procs|
    && var f := s.procs[p];
       match act
       case ReadDie => f.LoopHead?
       case ReadRefreshSize => f.Snapshot?
       case DrainNext => f.Drain? || f.DrainWait?
       case RefreshDone => f.Refreshing?
       case ReadUserSize => f.CheckUser?
       case DequeueUser => f.TakeUser? || f.TakeWait?
       case StoreRc(_) => f.Serve? && InBounds(s, f.e)
       case Fail => f.Serve? || f.Stored?
       case ReadRc => f.Stored?
       case SetDone => f.MarkDone? && InBounds(s, f.e)
       case Clock(_) => f.CheckTime?
  }

  /** The pointers of a user transaction name cells that were allocated at some time. */
  predicate InBounds(s: State, e: Info) {
    e.rc.Ref? && e.rc.id < |s.replies| && e.done.Ref? && e.done.id < |s.replies|
  }

  predicate Inside(f: HandlerPhase) { !f.Between? && !f.Returned? }

  predicate HandlerEnabled(s: State, h: nat, act: HandlerAct) {
    && h < |s.handlers|
    && var f := s.handlers[h];
       match act
       case Dispatch => !Inside(f)
       case Enqueue(_) => (f.Enqueueing? || f.QueueFull?) && f.r < |s.replies|
       case LookDone => f.PollDone? && f.r < |s.replies|
       case LookDie => f.PollDie?
       case CopyRc => f.Leaving? && f.r < |s.replies|
  }

  predicate Enabled(s: State, l: Label) {
    match l
    case Proc(p, act) => ProcEnabled(s, p, act)
    case Handler(h, act) => HandlerEnabled(s, h, act)
    case RefreshArrives => s.refreshQueue < s.capacity
  }

  function Go(s: State, p: nat, f: ProcPhase): State
    requires p < |s.procs|
  {
    s.(procs := s.procs[p := f])
  }

  function GoHandler(s: State, h: nat, f: HandlerPhase): State
    requires h < |s.handlers|
  {
    s.(handlers := s.handlers[h := f])
  }

  function StepProc(s: State, p: nat, act: ProcAct): (r: State)
    requires ProcEnabled(s, p, act)
    ensures |r.procs| == |s.procs| && |r.handlers| == |s.handlers| && r.capacity == s.capacity
  {
    var f := s.procs[p];
    match act
    case ReadDie => Go(s, p, if s.die then Stopped else Snapshot)
    case ReadRefreshSize => Go(s, p, Drain(s.refreshQueue))
    case DrainNext =>
      if f.Drain? && f.n == 0 then Go(s, p, CheckUser)
      else if f.DrainWait? && s.die then Go(s, p, Stopped)
      else
        var left := if f.Drain? then f.n - 1 else f.n;
        if s.refreshQueue > 0 then Go(s, p, Refreshing(left)).(refreshQueue := s.refreshQueue - 1)
        else Go(s, p, DrainWait(left))
    case RefreshDone => Go(s, p, Drain(f.n))
    case ReadUserSize => Go(s, p, if |s.userQueue| > 0 then TakeUser else CheckTime)
    case DequeueUser =>
      if f.TakeWait? && s.die then Go(s, p, Stopped)
      else if |s.userQueue| > 0 then Go(s, p, Serve(s.userQueue[0])).(userQueue := s.userQueue[1..])
      else Go(s, p, TakeWait)
    case StoreRc(result) =>
      Go(s, p, Stored(f.e)).(
        replies := s.replies[f.e.rc.id := s.replies[f.e.rc.id].(rc := result)],
        outcome := s.outcome[f.e.request := result])
    case Fail => Go(s, p, MarkDone(f.e))
    case ReadRc => Go(s, p, MarkDone(f.e))
    case SetDone =>
      Go(s, p, CheckTime).(
        replies := s.replies[f.e.done.id := s.replies[f.e.done.id].(done := true)])
    case Clock(expired) =>
      if expired then Go(s, p, Stopped).(die := true) else Go(s, p, LoopHead)
  }

  function StepHandler(s: State, h: nat, act: HandlerAct): (r: State)
    requires HandlerEnabled(s, h, act)
    ensures |r.procs| == |s.procs| && |r.handlers| == |s.handlers| && r.capacity == s.capacity
  {
    var f := s.handlers[h];
    match act
    case Dispatch =>
      GoHandler(s, h, Enqueueing(|s.replies|)).(replies := s.replies + [Reply(h, true, false, FAIL)])
    case Enqueue(stamp) =>
      if f.QueueFull? && s.die then
        GoHandler(s, h, Returned(f.r, NotEnqueued)).(replies := s.replies[f.r := s.replies[f.r].(live := false)])
      else if |s.userQueue| < s.capacity then
        GoHandler(s, h, PollDone(f.r)).(
          userQueue := s.userQueue
                       + [UserInfo(f.r, stamp, Ref(f.r), Ref(f.r)).(ticket := s.tickets + 1)],
          tickets := s.tickets + 1)
      else GoHandler(s, h, QueueFull(f.r))
    case LookDone => GoHandler(s, h, if s.replies[f.r].done then Leaving(f.r) else PollDie(f.r))
    case LookDie => GoHandler(s, h, if s.die then Leaving(f.r) else PollDone(f.r))
    case CopyRc =>
      GoHandler(s, h, Returned(f.r, Reported(s.replies[f.r].rc))).(
        replies := s.replies[f.r := s.replies[f.r].(live := false)])
  }

  function Step(s: State, l: Label): (r: State)
    requires Enabled(s, l)
    ensures |r.procs| == |s.procs| && |r.handlers| == |s.handlers| && r.capacity == s.capacity
  {
    match l
    case Proc(p, act) => StepProc(s, p, act)
    case Handler(h, act) => StepHandler(s, h, act)
    case RefreshArrives => s.(refreshQueue := s.refreshQueue + 1)
  }

  /** `n` processing threads and `m` handlers over queues of the given capacity. */
  function Init(n: nat, m: nat, capacity: nat): State {
    State(seq(n, _ => LoopHead), seq(m, _ => Between), capacity, [], 0, 0, false, [], map[])
  }

  predicate ValidRun(s: State, ls: seq<Label>)
    decreases |ls|
  {
    ls != [] ==> Enabled(s, ls[0]) && ValidRun(Step(s, ls[0]), ls[1..])
  }

  function Exec(s: State, ls: seq<Label>): State
    requires ValidRun(s, ls)
    decreases |ls|
  {
    if ls == [] then s else Exec(Step(s, ls[0]), ls[1..])
  }

  lemma {:induction false} RunsCompose(s: State, a: seq<Label>, b: seq<Label>)
    requires ValidRun(s, a) && ValidRun(Exec(s, a), b)
    ensures ValidRun(s, a + b) && Exec(s, a + b) == Exec(Exec(s, a), b)
    decreases |a|
  {
    if a == [] {
      assert a + b == b;
    } else {
      RunsCompose(Step(s, a[0]), a[1..], b);
      assert (a + b)[1..] == a[1..] + b;
    }
  }

  lemma Extend(s: State, a: seq<Label>, l: Label) returns (b: seq<Label>)
    requires ValidRun(s, a) && Enabled(Exec(s, a), l)
    ensures b == a + [l] && ValidRun(s, b) && Exec(s, b) == Step(Exec(s, a), l)
  {
    b := a + [l];
    var t := Exec(s, a);
    var one := [l];
    assert one[1..] == [] && ValidRun(t, one);
    assert Exec(t, one) == Exec(Step(t, one[0]), one[1..]);
    RunsCompose(s, a, one);
  }

  // ---------- the user queue is the ring buffer ----------

  /** The ring buffer behind the user queue of a state. */
  ghost predicate Represents(r: Ring, s: State) {
    Wf(r) && |r.slots| == s.capacity && Contents(r) == s.userQueue && r.ticketReq == s.tickets
  }

  /** A handler's enqueue is the ring's: it waits exactly when the ring is full, and otherwise
      leaves the ring representing the new queue. */
  lemma EnqueueIsPut(r: Ring, s: State, h: nat, stamp: int)
    requires Represents(r, s) && HandlerEnabled(s, h, Enqueue(stamp))
    requires !(s.handlers[h].QueueFull? && s.die)
    ensures var t := StepHandler(s, h, Enqueue(stamp)); var q := s.handlers[h].r;
      if r.occupied < |r.slots| then
        && Represents(Put(r, UserInfo(q, stamp, Ref(q), Ref(q))), t)
        && t.userQueue == s.userQueue + [Info(stamp, r.ticketReq + 1, Ref(q), Ref(q), q)]
        && t.handlers[h] == PollDone(q)
      else t.handlers[h] == QueueFull(q) && Represents(r, t)
  {
    if r.occupied < |r.slots| {
      var q := s.handlers[h].r;
      PutAppends(r, UserInfo(q, stamp, Ref(q), Ref(q)));
    }
  }

  /** The processing thread's dequeue is the ring's, and it serves what the ring hands out. */
  lemma DequeueIsTake(r: Ring, s: State, p: nat)
    requires Represents(r, s) && ProcEnabled(s, p, DequeueUser) && !(s.procs[p].TakeWait? && s.die)
    ensures var t := StepProc(s, p, DequeueUser);
      if r.occupied > 0 then Take(r).0 == t.procs[p].e && t.procs[p].Serve?
                             && Represents(Take(r).1, t)
      else t.procs[p].TakeWait? && Represents(r, t)
  {
    if r.occupied > 0 {
      TakeRemovesOldest(r);
    }
  }

  // ---------- the refresh queue is a ring buffer too ----------

  /** The ring buffer behind the refresh queue of a state, which keeps only its length. */
  predicate RepresentsRefresh(r: Ring, s: State) {
    Wf(r) && |r.slots| == s.capacity && r.occupied == s.refreshQueue
  }

  /** An update thread's enqueue is the ring's, and what it stores carries no reply pointers. */
  lemma RefreshIsPut(r: Ring, s: State, request: nat, stamp: int)
    requires RepresentsRefresh(r, s) && Enabled(s, RefreshArrives)
    ensures RepresentsRefresh(Put(r, SystemInfo(request, stamp)), Step(s, RefreshArrives))
    ensures Contents(Put(r, SystemInfo(request, stamp))) ==
            Contents(r) + [Info(stamp, r.ticketReq + 1, Null, Null, request)]
  {
    PutAppends(r, SystemInfo(request, stamp));
  }

  /** The processing thread takes a refresh transaction exactly when the ring hands one out. */
  lemma DrainIsTake(r: Ring, s: State, p: nat)
    requires RepresentsRefresh(r, s) && ProcEnabled(s, p, DrainNext)
    requires !(s.procs[p].Drain? && s.procs[p].n == 0) && !(s.procs[p].DrainWait? && s.die)
    ensures var t := StepProc(s, p, DrainNext);
      if r.occupied > 0 then t.procs[p].Refreshing? && RepresentsRefresh(Take(r).1, t)
      else t.procs[p].DrainWait? && RepresentsRefresh(r, t)
  {
    if r.occupied > 0 {
      TakeRemovesOldest(r);
    }
  }
}
