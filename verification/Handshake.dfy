/** The reply protocol between handlers and the processing thread. */

module Handshake {
  import opened ReadyQueues
  import opened Server

  predicate Serving(f: ProcPhase) { f.Serve? || f.Stored? || f.MarkDone? }

  /** A queued or served transaction points at the cells of its own request, whose `txn_done`
      is still 0. */
  predicate EntryOk(s: State, e: Info) {
    && e.request < |s.replies| && e.done == Ref(e.request) && e.rc == Ref(e.request)
    && !s.replies[e.request].done
  }

  /** The handler that issued request `r` is still in its polling loop. */
  predicate Polling(s: State, r: nat) {
    && r < |s.replies| && s.replies[r].owner < |s.handlers|
    && var f := s.handlers[s.replies[r].owner]; f == PollDone(r) || f == PollDie(r)
  }

  /** What a request is answered with: the result computed for it, FAIL if there is none. */
  function Answer(outcome: map<nat, int>, r: nat): int {
    if r in outcome then outcome[r] else FAIL
  }

  ghost predicate ProcOk(s: State) {
    && |s.procs| <= 1
    && (forall p :: 0 <= p < |s.procs| ==>
          var f := s.procs[p];
          && (s.die <==> f.Stopped?)
          && (Serving(f) ==> EntryOk(s, f.e) && Polling(s, f.e.request))
          && (f.Serve? ==> f.e.request !in s.outcome)
          && (f.Drain? || f.Refreshing? ==> f.n <= s.refreshQueue) && !f.DrainWait?
          && (f.TakeUser? ==> s.userQueue != []) && !f.TakeWait?)
    && s.refreshQueue <= s.capacity
    && |s.userQueue| <= s.capacity
  }

  ghost predicate QueueOk(s: State) {
    && (forall i :: 0 <= i < |s.userQueue| ==> EntryOk(s, s.userQueue[i]))
    && (forall i :: 0 <= i < |s.userQueue| ==> s.userQueue[i].request !in s.outcome)
    && (forall i :: 0 <= i < |s.userQueue| && !s.die ==> Polling(s, s.userQueue[i].request))
    && (forall i, k :: 0 <= i < k < |s.userQueue| ==> s.userQueue[i].request != s.userQueue[k].request)
    && (forall p, i :: 0 <= p < |s.procs| && Serving(s.procs[p]) && 0 <= i < |s.userQueue| ==>
          s.procs[p].e.request != s.userQueue[i].request)
  }

  /** The handler's present call has not put its request into the queue, or never will. */
  predicate Unqueued(f: HandlerPhase) {
    f.Enqueueing? || f.QueueFull? || (f.Returned? && f.report.NotEnqueued?)
  }

  /** The handler has left its polling loop, and may have returned since. */
  predicate Left(f: HandlerPhase) { f.Leaving? || (f.Returned? && f.report.Reported?) }

  /** Handlers inside `dispatchTableFn` own live cells, and only their own. */
  ghost predicate HandlersOk(s: State) {
    && (forall h :: 0 <= h < |s.handlers| && !s.handlers[h].Between? ==>
          var f := s.handlers[h];
          f.r < |s.replies| && s.replies[f.r].owner == h && (Inside(f) ==> s.replies[f.r].live))
    && (forall h :: 0 <= h < |s.handlers| && Unqueued(s.handlers[h]) ==>
          !s.replies[s.handlers[h].r].done && s.handlers[h].r !in s.outcome
          && forall i :: 0 <= i < |s.userQueue| ==> s.userQueue[i].request != s.handlers[h].r)
  }

  ghost predicate AnswersOk(s: State) {
    && (forall r :: 0 <= r < |s.replies| ==> s.replies[r].rc == Answer(s.outcome, r))
    && (forall r :: r in s.outcome ==> r < |s.replies|)
    && (forall h :: 0 <= h < |s.handlers| && s.handlers[h].Returned? && s.handlers[h].report.Reported? ==>
          s.handlers[h].report.rc == Answer(s.outcome, s.handlers[h].r))
    && (forall h :: 0 <= h < |s.handlers| && Left(s.handlers[h]) ==>
          s.die || (s.handlers[h].r < |s.replies| && s.replies[s.handlers[h].r].done))
    && (forall h :: 0 <= h < |s.handlers| && s.handlers[h].Returned? && s.handlers[h].report.NotEnqueued? ==>
          s.die)
  }

  ghost predicate Inv(s: State) { ProcOk(s) && QueueOk(s) && HandlersOk(s) && AnswersOk(s) }

  lemma InitInv(n: nat, m: nat, capacity: nat)
    requires n <= 1
    ensures Inv(Init(n, m, capacity))
  {
  }

  /** The acts that change nothing but the thread's own phase and the refresh queue. */
  predicate Local(act: ProcAct) {
    !act.DequeueUser? && !act.StoreRc? && !act.SetDone? && !act.Clock?
  }

  lemma LocalStep(s: State, p: nat, act: ProcAct)
    requires ProcEnabled(s, p, act) && Local(act)
    ensures var t := StepProc(s, p, act);
      t == s.(procs := s.procs[p := t.procs[p]], refreshQueue := t.refreshQueue)
  {
  }

  lemma LocalKeepsProcOk(s: State, p: nat, act: ProcAct)
    requires ProcOk(s) && QueueOk(s) && ProcEnabled(s, p, act) && Local(act)
    ensures ProcOk(StepProc(s, p, act))
  {
    LocalStep(s, p, act);
  }

  lemma StoreKeepsProcOk(s: State, p: nat, result: int)
    requires ProcOk(s) && ProcEnabled(s, p, StoreRc(result))
    ensures ProcOk(StepProc(s, p, StoreRc(result)))
  {
  }

  lemma DequeueKeepsProcOk(s: State, p: nat)
    requires ProcOk(s) && QueueOk(s) && ProcEnabled(s, p, DequeueUser)
    ensures ProcOk(StepProc(s, p, DequeueUser))
  {
  }

  lemma ProcKeepsProcOk(s: State, p: nat, act: ProcAct)
    requires ProcOk(s) && QueueOk(s) && ProcEnabled(s, p, act)
    ensures ProcOk(StepProc(s, p, act))
  {
    match act
    case DequeueUser => DequeueKeepsProcOk(s, p);
    case StoreRc(result) => StoreKeepsProcOk(s, p, result);
    case SetDone =>
    case Clock(_) =>
    case _ => LocalKeepsProcOk(s, p, act);
  }

  lemma ProcKeepsQueueOk(s: State, p: nat, act: ProcAct)
    requires Inv(s) && ProcEnabled(s, p, act)
    ensures QueueOk(StepProc(s, p, act))
  {
    match act
    case DequeueUser => DequeueKeepsQueueOk(s, p);
    case SetDone => SetDoneKeepsQueueOk(s, p);
    case StoreRc(result) => StoreKeepsQueueOk(s, p, result);
    case Clock(expired) => ClockKeepsQueueOk(s, p, expired);
    case _ => LocalKeepsQueueOk(s, p, act);
  }

  lemma LocalKeepsQueueOk(s: State, p: nat, act: ProcAct)
    requires QueueOk(s) && ProcEnabled(s, p, act) && Local(act)
    ensures QueueOk(StepProc(s, p, act))
  {
    LocalStep(s, p, act);
    assert Serving(StepProc(s, p, act).procs[p]) ==>
      Serving(s.procs[p]) && s.procs[p].e == StepProc(s, p, act).procs[p].e;
  }

  lemma ClockKeepsQueueOk(s: State, p: nat, expired: bool)
    requires QueueOk(s) && ProcEnabled(s, p, Clock(expired))
    ensures QueueOk(StepProc(s, p, Clock(expired)))
  {
  }

  lemma DequeueKeepsQueueOk(s: State, p: nat)
    requires Inv(s) && ProcEnabled(s, p, DequeueUser)
    ensures QueueOk(StepProc(s, p, DequeueUser))
  {
    var t := StepProc(s, p, DequeueUser);
    assert t.replies == s.replies && t.handlers == s.handlers;
    assert forall i :: 0 <= i < |t.userQueue| ==> t.userQueue[i] == s.userQueue[i + 1];
  }

  lemma SetDoneKeepsQueueOk(s: State, p: nat)
    requires Inv(s) && ProcEnabled(s, p, SetDone)
    ensures QueueOk(StepProc(s, p, SetDone))
  {
  }

  lemma StoreKeepsQueueOk(s: State, p: nat, result: int)
    requires Inv(s) && ProcEnabled(s, p, StoreRc(result))
    ensures QueueOk(StepProc(s, p, StoreRc(result)))
  {
  }

  /** A step that leaves handlers, cells and results alone, and queues nothing. */
  lemma HandlersFrame(s: State, t: State)
    requires HandlersOk(s) && t.handlers == s.handlers && t.replies == s.replies && t.outcome == s.outcome
    requires forall i :: 0 <= i < |t.userQueue| ==> t.userQueue[i] in s.userQueue
    ensures HandlersOk(t)
  {
  }

  lemma StoreKeepsHandlersOk(s: State, p: nat, result: int)
    requires ProcOk(s) && HandlersOk(s) && ProcEnabled(s, p, StoreRc(result))
    ensures HandlersOk(StepProc(s, p, StoreRc(result)))
  {
    assert Polling(s, s.procs[p].e.request);
  }

  lemma SetDoneKeepsHandlersOk(s: State, p: nat)
    requires ProcOk(s) && HandlersOk(s) && ProcEnabled(s, p, SetDone)
    ensures HandlersOk(StepProc(s, p, SetDone))
  {
    assert Polling(s, s.procs[p].e.request);
  }

  lemma ProcKeepsHandlersOk(s: State, p: nat, act: ProcAct)
    requires ProcOk(s) && HandlersOk(s) && ProcEnabled(s, p, act)
    ensures HandlersOk(StepProc(s, p, act))
  {
    match act
    case StoreRc(result) => StoreKeepsHandlersOk(s, p, result);
    case SetDone => SetDoneKeepsHandlersOk(s, p);
    case DequeueUser => HandlersFrame(s, StepProc(s, p, act));
    case Clock(_) => HandlersFrame(s, StepProc(s, p, act));
    case _ =>
      LocalStep(s, p, act);
      HandlersFrame(s, StepProc(s, p, act));
  }

  lemma AnswersFrame(s: State, t: State)
    requires AnswersOk(s) && t.handlers == s.handlers && t.replies == s.replies && t.outcome == s.outcome
    requires s.die ==> t.die
    ensures AnswersOk(t)
  {
  }

  lemma StoreKeepsAnswersOk(s: State, p: nat, result: int)
    requires Inv(s) && ProcEnabled(s, p, StoreRc(result))
    ensures AnswersOk(StepProc(s, p, StoreRc(result)))
  {
    assert Polling(s, s.procs[p].e.request);
  }

  lemma SetDoneKeepsAnswersOk(s: State, p: nat)
    requires AnswersOk(s) && ProcOk(s) && ProcEnabled(s, p, SetDone)
    ensures AnswersOk(StepProc(s, p, SetDone))
  {
  }

  lemma ProcKeepsAnswersOk(s: State, p: nat, act: ProcAct)
    requires Inv(s) && ProcEnabled(s, p, act)
    ensures AnswersOk(StepProc(s, p, act))
  {
    match act
    case StoreRc(result) => StoreKeepsAnswersOk(s, p, result);
    case SetDone => SetDoneKeepsAnswersOk(s, p);
    case DequeueUser => AnswersFrame(s, StepProc(s, p, act));
    case Clock(_) => AnswersFrame(s, StepProc(s, p, act));
    case _ =>
      LocalStep(s, p, act);
      AnswersFrame(s, StepProc(s, p, act));
  }

  lemma HandlerKeepsProcOk(s: State, h: nat, act: HandlerAct)
    requires Inv(s) && HandlerEnabled(s, h, act)
    ensures ProcOk(StepHandler(s, h, act))
  {
  }

  lemma HandlerKeepsQueueOk(s: State, h: nat, act: HandlerAct)
    requires Inv(s) && HandlerEnabled(s, h, act)
    ensures QueueOk(StepHandler(s, h, act))
  {
    if act.Enqueue? {
      EnqueueKeepsQueueOk(s, h, act.stamp);
    } else if act.Dispatch? {
      DispatchKeepsQueueOk(s, h);
    }
  }

  lemma AcceptedKeepsQueueOk(s: State, h: nat, stamp: int)
    requires ProcOk(s) && QueueOk(s) && HandlersOk(s)
    requires HandlerEnabled(s, h, Enqueue(stamp)) && Accepts(s, h)
    ensures QueueOk(StepHandler(s, h, Enqueue(stamp)))
  {
    var t := StepHandler(s, h, Enqueue(stamp));
    assert t.replies == s.replies && t.procs == s.procs && t.outcome == s.outcome;
    assert forall i :: 0 <= i < |s.userQueue| ==> t.userQueue[i] == s.userQueue[i];
    assert EntryOk(t, t.userQueue[|s.userQueue|]);
  }

  lemma RefusedKeepsQueueOk(s: State, h: nat, stamp: int)
    requires QueueOk(s) && HandlerEnabled(s, h, Enqueue(stamp)) && !Accepts(s, h)
    ensures QueueOk(StepHandler(s, h, Enqueue(stamp)))
  {
    var t := StepHandler(s, h, Enqueue(stamp));
    assert t.userQueue == s.userQueue && t.procs == s.procs;
  }

  lemma EnqueueKeepsQueueOk(s: State, h: nat, stamp: int)
    requires ProcOk(s) && QueueOk(s) && HandlersOk(s) && HandlerEnabled(s, h, Enqueue(stamp))
    ensures QueueOk(StepHandler(s, h, Enqueue(stamp)))
  {
    if Accepts(s, h) {
      AcceptedKeepsQueueOk(s, h, stamp);
    } else {
      RefusedKeepsQueueOk(s, h, stamp);
    }
  }

  lemma DispatchKeepsQueueOk(s: State, h: nat)
    requires Inv(s) && HandlerEnabled(s, h, Dispatch)
    ensures QueueOk(StepHandler(s, h, Dispatch))
  {
  }

  lemma HandlerKeepsHandlersOk(s: State, h: nat, act: HandlerAct)
    requires Inv(s) && HandlerEnabled(s, h, act)
    ensures HandlersOk(StepHandler(s, h, act))
  {
    if act.Enqueue? {
      EnqueueKeepsHandlersOk(s, h, act.stamp);
    } else if act.Dispatch? {
      DispatchKeepsHandlersOk(s, h);
    }
  }

  /** The handler's look at the queue lets it in. */
  predicate Accepts(s: State, h: nat)
    requires h < |s.handlers|
  {
    !(s.handlers[h].QueueFull? && s.die) && |s.userQueue| < s.capacity
  }

  lemma AcceptedKeepsHandlersOk(s: State, h: nat, stamp: int)
    requires HandlersOk(s) && HandlerEnabled(s, h, Enqueue(stamp)) && Accepts(s, h)
    ensures HandlersOk(StepHandler(s, h, Enqueue(stamp)))
  {
    var t := StepHandler(s, h, Enqueue(stamp));
    assert t.replies == s.replies && t.outcome == s.outcome;
    assert t.handlers == s.handlers[h := PollDone(s.handlers[h].r)];
    forall g, i | 0 <= g < |t.handlers| && Unqueued(t.handlers[g]) && 0 <= i < |t.userQueue|
      ensures t.userQueue[i].request != t.handlers[g].r
    {
      assert i < |s.userQueue| ==> t.userQueue[i] == s.userQueue[i];
    }
  }

  lemma RefusedKeepsHandlersOk(s: State, h: nat, stamp: int)
    requires HandlersOk(s) && HandlerEnabled(s, h, Enqueue(stamp)) && !Accepts(s, h)
    ensures HandlersOk(StepHandler(s, h, Enqueue(stamp)))
  {
    assert StepHandler(s, h, Enqueue(stamp)).userQueue == s.userQueue;
  }

  lemma EnqueueKeepsHandlersOk(s: State, h: nat, stamp: int)
    requires QueueOk(s) && HandlersOk(s) && HandlerEnabled(s, h, Enqueue(stamp))
    ensures HandlersOk(StepHandler(s, h, Enqueue(stamp)))
  {
    if Accepts(s, h) {
      AcceptedKeepsHandlersOk(s, h, stamp);
    } else {
      RefusedKeepsHandlersOk(s, h, stamp);
    }
  }

  lemma DispatchKeepsHandlersOk(s: State, h: nat)
    requires AnswersOk(s) && QueueOk(s) && HandlersOk(s) && HandlerEnabled(s, h, Dispatch)
    ensures HandlersOk(StepHandler(s, h, Dispatch))
  {
  }

  lemma HandlerKeepsAnswersOk(s: State, h: nat, act: HandlerAct)
    requires Inv(s) && HandlerEnabled(s, h, act)
    ensures AnswersOk(StepHandler(s, h, act))
  {
  }

  lemma StepKeepsInv(s: State, l: Label)
    requires Inv(s) && Enabled(s, l)
    ensures Inv(Step(s, l))
  {
    match l
    case Proc(p, act) =>
      ProcKeepsProcOk(s, p, act);
      ProcKeepsQueueOk(s, p, act);
      ProcKeepsHandlersOk(s, p, act);
      ProcKeepsAnswersOk(s, p, act);
    case Handler(h, act) =>
      HandlerKeepsProcOk(s, h, act);
      HandlerKeepsQueueOk(s, h, act);
      HandlerKeepsHandlersOk(s, h, act);
      HandlerKeepsAnswersOk(s, h, act);
    case RefreshArrives =>
  }

  lemma {:induction false} RunKeepsInv(s: State, ls: seq<Label>)
    requires Inv(s) && ValidRun(s, ls)
    ensures Inv(Exec(s, ls))
    decreases |ls|
  {
    if ls != [] {
      StepKeepsInv(s, ls[0]);
      RunKeepsInv(Step(s, ls[0]), ls[1..]);
    }
  }

  // ---------- the cells are live ----------

  /** The cell a step writes or reads through a pointer taken from the user queue. */
  function Touched(s: State, l: Label): Cell {
    if l.Proc? && l.p < |s.procs| && Serving(s.procs[l.p]) then
      match l.does
      case StoreRc(_) => s.procs[l.p].e.rc
      case ReadRc => s.procs[l.p].e.rc
      case SetDone => s.procs[l.p].e.done
      case _ => Null
    else Null
  }

  /** A transaction in service points into the cells, and no enabled step goes through a
      pointer to a cell whose handler has returned. */
  ghost predicate CellsLive(s: State) {
    && (forall p :: 0 <= p < |s.procs| && Serving(s.procs[p]) ==> InBounds(s, s.procs[p].e))
    && forall l :: Enabled(s, l) && Touched(s, l).Ref? ==>
      Touched(s, l).id < |s.replies| && s.replies[Touched(s, l).id].live
  }

  lemma InvMeansLive(s: State)
    requires Inv(s)
    ensures CellsLive(s)
  {
  }

  /** With one processing thread every access to a request's reply cells - the one that sets
      `txn_done` included - finds `txn_done` still 0: it is set at most once, and last. */
  lemma DoneComesLast(m: nat, capacity: nat, ls: seq<Label>, l: Label)
    requires ValidRun(Init(1, m, capacity), ls) && Enabled(Exec(Init(1, m, capacity), ls), l)
    ensures var s := Exec(Init(1, m, capacity), ls);
      Touched(s, l).Ref? ==> Touched(s, l).id < |s.replies| && !s.replies[Touched(s, l).id].done
  {
    InitInv(1, m, capacity);
    RunKeepsInv(Init(1, m, capacity), ls);
  }

  lemma ProcKeepsDone(s: State, p: nat, act: ProcAct, r: nat)
    requires ProcOk(s) && ProcEnabled(s, p, act) && r < |s.replies| && s.replies[r].done
    ensures var t := StepProc(s, p, act);
      && |t.replies| == |s.replies| && t.replies[r] == s.replies[r]
      && Answer(t.outcome, r) == Answer(s.outcome, r)
  {
    if Local(act) {
      LocalStep(s, p, act);
    }
  }

  lemma HandlerKeepsDone(s: State, h: nat, act: HandlerAct, r: nat)
    requires HandlerEnabled(s, h, act) && r < |s.replies|
    ensures var t := StepHandler(s, h, act);
      && r < |t.replies| && t.replies[r].done == s.replies[r].done && t.replies[r].rc == s.replies[r].rc
      && t.outcome == s.outcome
  {
  }

  lemma StepKeepsDone(s: State, l: Label, r: nat)
    requires Inv(s) && Enabled(s, l) && r < |s.replies| && s.replies[r].done
    ensures var t := Step(s, l);
      r < |t.replies| && t.replies[r].done && t.replies[r].rc == s.replies[r].rc
      && Answer(t.outcome, r) == Answer(s.outcome, r)
  {
    match l
    case Proc(p, act) => ProcKeepsDone(s, p, act, r);
    case Handler(h, act) => HandlerKeepsDone(s, h, act, r);
    case RefreshArrives =>
  }

  /** Once `txn_done` is set the answer of that request no longer changes. */
  lemma {:induction false} DoneIsFinal(s: State, ls: seq<Label>, r: nat)
    requires Inv(s) && ValidRun(s, ls) && r < |s.replies| && s.replies[r].done
    ensures var t := Exec(s, ls);
      r < |t.replies| && t.replies[r].done && t.replies[r].rc == s.replies[r].rc
      && Answer(t.outcome, r) == Answer(s.outcome, r)
    decreases |ls|
  {
    if ls != [] {
      StepKeepsDone(s, ls[0], r);
      StepKeepsInv(s, ls[0]);
      DoneIsFinal(Step(s, ls[0]), ls[1..], r);
    }
  }

  /** Each handler gets its own answer: what it reports is the result computed for the request
      it dispatched, and FAIL if processing ended before a result or never began. */
  lemma HandlersGetTheirAnswer(m: nat, capacity: nat, ls: seq<Label>, h: nat)
    requires ValidRun(Init(1, m, capacity), ls) && h < |Exec(Init(1, m, capacity), ls).handlers|
    ensures var s := Exec(Init(1, m, capacity), ls); var f := s.handlers[h];
      f.Returned? && f.report.Reported? ==>
        && f.r < |s.replies| && s.replies[f.r].owner == h
        && f.report.rc == (if f.r in s.outcome then s.outcome[f.r] else FAIL)
        && (forall i :: 0 <= i < |s.userQueue| && s.userQueue[i].request == f.r ==> f.report.rc == FAIL)
  {
    InitInv(1, m, capacity);
    RunKeepsInv(Init(1, m, capacity), ls);
  }

  // ---------- more than one processing thread ----------

  lemma OneIsQueued(n: nat, m: nat, capacity: nat) returns (ls: seq<Label>)
    requires m > 0 && capacity > 0
    ensures ValidRun(Init(n, m, capacity), ls)
    ensures var i := Init(n, m, capacity);
      Exec(i, ls) == i.(handlers := i.handlers[0 := PollDone(0)], tickets := 1,
                        userQueue := [UserInfo(0, 0, Ref(0), Ref(0)).(ticket := 1)],
                        replies := [Reply(0, true, false, FAIL)])
  {
    var i := Init(n, m, capacity);
    ls := Extend(i, [], Handler(0, Dispatch));
    ls := Extend(i, ls, Handler(0, Enqueue(0)));
    assert i.handlers[0 := Enqueueing(0)][0 := PollDone(0)] == i.handlers[0 := PollDone(0)];
  }

  /** A request is dispatched and taken by the first processing thread. */
  lemma FirstThreadServes(n: nat, m: nat, capacity: nat) returns (ls: seq<Label>)
    requires n > 1 && m > 0 && capacity > 0
    ensures ValidRun(Init(n, m, capacity), ls)
    ensures var s := Exec(Init(n, m, capacity), ls); var e := UserInfo(0, 0, Ref(0), Ref(0)).(ticket := 1);
      s == Init(n, m, capacity).(procs := s.procs, handlers := s.handlers, tickets := 1,
                                 replies := [Reply(0, true, false, FAIL)])
      && |s.procs| == n && s.procs[0] == Serve(e) && s.procs[1] == LoopHead
      && |s.handlers| == m && s.handlers[0] == PollDone(0)
  {
    var i := Init(n, m, capacity);
    ls := OneIsQueued(n, m, capacity);
    ls := Extend(i, ls, Proc(0, ReadDie));
    ls := Extend(i, ls, Proc(0, ReadRefreshSize));
    ls := Extend(i, ls, Proc(0, DrainNext));
    ls := Extend(i, ls, Proc(0, ReadUserSize));
    ls := Extend(i, ls, Proc(0, DequeueUser));
  }

  /** Meanwhile the second one finds the experiment over, and the handler returns. */
  lemma SecondThreadStops(s: State) returns (ls: seq<Label>)
    requires |s.procs| > 1 && s.procs[1].LoopHead? && !s.die && s.refreshQueue == 0 && s.userQueue == []
    requires |s.handlers| > 0 && s.handlers[0] == PollDone(0)
    requires |s.replies| == 1 && !s.replies[0].done
    ensures ValidRun(s, ls)
    ensures var t := Exec(s, ls);
      |t.procs| == |s.procs| && t.procs[0] == s.procs[0] && |t.replies| == 1 && !t.replies[0].live
  {
    ls := Extend(s, [], Proc(1, ReadDie));
    ls := Extend(s, ls, Proc(1, ReadRefreshSize));
    ls := Extend(s, ls, Proc(1, DrainNext));
    ls := Extend(s, ls, Proc(1, ReadUserSize));
    ls := Extend(s, ls, Proc(1, Clock(true)));
    ls := Extend(s, ls, Handler(0, LookDone));
    ls := Extend(s, ls, Handler(0, LookDie));
    ls := Extend(s, ls, Handler(0, CopyRc));
  }

  /** Exactly when the reply pointers are always safe: at most one processing thread. The
      server-threads option accepts more, and then a second thread that ends the experiment
      lets a handler return while the first is still serving its request. */
  lemma CellsAreLiveExactlyWhen(n: nat, m: nat, capacity: nat)
    requires m > 0 && capacity > 0
    ensures (forall ls :: ValidRun(Init(n, m, capacity), ls) ==> CellsLive(Exec(Init(n, m, capacity), ls)))
            <==> n <= 1
  {
    var i := Init(n, m, capacity);
    if n <= 1 {
      InitInv(n, m, capacity);
      forall ls | ValidRun(i, ls) ensures CellsLive(Exec(i, ls)) {
        RunKeepsInv(i, ls);
        InvMeansLive(Exec(i, ls));
      }
    } else {
      var first := FirstThreadServes(n, m, capacity);
      var second := SecondThreadStops(Exec(i, first));
      RunsCompose(i, first, second);
      var t := Exec(i, first + second);
      assert Enabled(t, Proc(0, StoreRc(0))) && Touched(t, Proc(0, StoreRc(0))) == Ref(0);
    }
  }
}
