/** How threads leave: handlers once they are answered or the process was asked to die,
    processing threads once it was. */

module Departure {
  import opened ReadyQueues
  import opened Server
  import opened Handshake

  // ---------- who asks the process to die ----------

  /** Some processing thread found the experiment over. */
  predicate TimeExpired(ls: seq<Label>) {
    exists i :: 0 <= i < |ls| && ls[i].Proc? && ls[i].does == Clock(true)
  }

  lemma DieByStep(s: State, l: Label)
    requires Enabled(s, l)
    ensures Step(s, l).die == (s.die || (l.Proc? && l.does == Clock(true)))
  {
    match l
    case Proc(p, act) => if Local(act) { LocalStep(s, p, act); }
    case Handler(_, _) =>
    case RefreshArrives =>
  }

  lemma {:induction false} DieOverRuns(s: State, ls: seq<Label>)
    requires ValidRun(s, ls)
    ensures Exec(s, ls).die <==> s.die || TimeExpired(ls)
    decreases |ls|
  {
    if ls != [] {
      DieByStep(s, ls[0]);
      DieOverRuns(Step(s, ls[0]), ls[1..]);
      if TimeExpired(ls[1..]) {
        var i :| 0 <= i < |ls| - 1 && ls[1..][i].Proc? && ls[1..][i].does == Clock(true);
        assert ls[i + 1].does == Clock(true);
      }
      if TimeExpired(ls) && !(ls[0].Proc? && ls[0].does == Clock(true)) {
        var i :| 0 <= i < |ls| && ls[i].Proc? && ls[i].does == Clock(true);
        assert ls[1..][i - 1].does == Clock(true);
      }
    }
  }

  /** Only a processing thread sets `time_to_die`, when its clock has run out, and nothing
      clears it. */
  lemma DieMeansExpired(n: nat, m: nat, capacity: nat, ls: seq<Label>)
    requires ValidRun(Init(n, m, capacity), ls)
    ensures Exec(Init(n, m, capacity), ls).die <==> TimeExpired(ls)
  {
    DieOverRuns(Init(n, m, capacity), ls);
  }

  // ---------- handlers ----------

  /** Steps of its own that a handler can still take inside this call of `dispatchTableFn` once
      the process was asked to die. */
  function StepsToLeave(f: HandlerPhase): nat {
    match f
    case Enqueueing(_) => 4
    case PollDone(_) => 3
    case PollDie(_) => 2
    case QueueFull(_) => 1
    case Leaving(_) => 1
    case Between => 0
    case Returned(_, _) => 0
  }

  /** How often handler `h` acts. */
  function OwnActs(ls: seq<Label>, h: nat): nat {
    if ls == [] then 0
    else (if ls[0].Handler? && ls[0].h == h then 1 else 0) + OwnActs(ls[1..], h)
  }

  predicate NoDispatch(ls: seq<Label>, h: nat) { forall i :: 0 <= i < |ls| ==> ls[i] != Handler(h, Dispatch) }

  lemma OwnStepToLeave(s: State, h: nat, act: HandlerAct)
    requires s.die && HandlerEnabled(s, h, act) && act != Dispatch
    ensures var t := StepHandler(s, h, act);
      t.die && StepsToLeave(t.handlers[h]) + 1 <= StepsToLeave(s.handlers[h])
  {
  }

  lemma ProcKeepsHandlers(s: State, p: nat, act: ProcAct)
    requires ProcEnabled(s, p, act)
    ensures var t := StepProc(s, p, act); t.handlers == s.handlers && (s.die ==> t.die)
  {
  }

  lemma OthersKeepHandler(s: State, h: nat, act: HandlerAct, g: nat)
    requires HandlerEnabled(s, h, act) && g < |s.handlers| && g != h
    ensures var t := StepHandler(s, h, act); t.handlers[g] == s.handlers[g] && t.die == s.die
  {
  }

  lemma StepToLeave(s: State, l: Label, h: nat)
    requires s.die && Enabled(s, l) && h < |s.handlers| && l != Handler(h, Dispatch)
    ensures var t := Step(s, l); var own := if l.Handler? && l.h == h then 1 else 0;
      t.die && StepsToLeave(t.handlers[h]) + own <= StepsToLeave(s.handlers[h])
  {
    match l
    case Proc(p, act) => ProcKeepsHandlers(s, p, act);
    case Handler(g, act) =>
      if g == h { OwnStepToLeave(s, h, act); } else { OthersKeepHandler(s, g, act, h); }
    case RefreshArrives =>
  }

  lemma {:induction false} RunToLeave(s: State, ls: seq<Label>, h: nat)
    requires s.die && ValidRun(s, ls) && h < |s.handlers| && NoDispatch(ls, h)
    ensures var t := Exec(s, ls);
      |t.handlers| == |s.handlers|
      && OwnActs(ls, h) + StepsToLeave(t.handlers[h]) <= StepsToLeave(s.handlers[h])
    decreases |ls|
  {
    if ls != [] {
      StepToLeave(s, ls[0], h);
      assert NoDispatch(ls[1..], h);
      RunToLeave(Step(s, ls[0]), ls[1..], h);
    }
  }

  lemma HandlerIsFree(s: State, h: nat) returns (act: HandlerAct)
    requires Inv(s) && h < |s.handlers| && Inside(s.handlers[h])
    ensures act != Dispatch && HandlerEnabled(s, h, act)
  {
    var f := s.handlers[h];
    act := if f.PollDone? then LookDone else if f.PollDie? then LookDie
           else if f.Leaving? then CopyRc else Enqueue(0);
  }

  /** Once the process is asked to die every handler leaves `dispatchTableFn` after at most four
      steps of its own, and until then nothing can keep it from its next step. */
  lemma HandlersLeave(n: nat, m: nat, capacity: nat, before: seq<Label>, ls: seq<Label>, h: nat)
    requires n <= 1 && h < m && ValidRun(Init(n, m, capacity), before)
    requires var s := Exec(Init(n, m, capacity), before); s.die && ValidRun(s, ls) && NoDispatch(ls, h)
    ensures var t := Exec(Exec(Init(n, m, capacity), before), ls);
      && |t.handlers| == m && OwnActs(ls, h) <= 4
      && (OwnActs(ls, h) == 4 ==> !Inside(t.handlers[h]))
      && (Inside(t.handlers[h]) ==> exists act :: act != Dispatch && HandlerEnabled(t, h, act))
  {
    var i := Init(n, m, capacity);
    InitInv(n, m, capacity);
    RunKeepsInv(i, before);
    RunKeepsHandlers(i, before);
    var s := Exec(i, before);
    RunKeepsInv(s, ls);
    RunToLeave(s, ls, h);
    var t := Exec(s, ls);
    if Inside(t.handlers[h]) {
      var act := HandlerIsFree(t, h);
    }
  }

  lemma {:induction false} RunKeepsHandlers(s: State, ls: seq<Label>)
    requires ValidRun(s, ls)
    ensures |Exec(s, ls).handlers| == |s.handlers|
    decreases |ls|
  {
    if ls != [] {
      RunKeepsHandlers(Step(s, ls[0]), ls[1..]);
    }
  }

  // ---------- answered handlers ----------

  /** The same once the handler's request is answered. */
  function StepsOnceDone(f: HandlerPhase): nat {
    match f
    case PollDie(_) => 3
    case PollDone(_) => 2
    case Leaving(_) => 1
    case _ => 0
  }

  /** The call of `dispatchTableFn` that handler `h` is in has been answered. */
  predicate Answered(s: State, h: nat, r: nat) {
    && h < |s.handlers| && r < |s.replies| && s.replies[r].done
    && (Inside(s.handlers[h]) ==> s.handlers[h].r == r && !Unqueued(s.handlers[h]))
  }

  lemma OwnStepOnceDone(s: State, h: nat, act: HandlerAct, r: nat)
    requires HandlerEnabled(s, h, act) && act != Dispatch && Answered(s, h, r)
    ensures var t := StepHandler(s, h, act);
      Answered(t, h, r) && StepsOnceDone(t.handlers[h]) + 1 <= StepsOnceDone(s.handlers[h])
  {
  }

  lemma StepOnceDone(s: State, l: Label, h: nat, r: nat)
    requires Inv(s) && Enabled(s, l) && l != Handler(h, Dispatch) && Answered(s, h, r)
    ensures var t := Step(s, l); var own := if l.Handler? && l.h == h then 1 else 0;
      Answered(t, h, r) && StepsOnceDone(t.handlers[h]) + own <= StepsOnceDone(s.handlers[h])
  {
    StepKeepsDone(s, l, r);
    match l
    case Proc(p, act) => ProcKeepsHandlers(s, p, act);
    case Handler(g, act) =>
      if g == h { OwnStepOnceDone(s, h, act, r); } else { OthersKeepHandler(s, g, act, h); }
    case RefreshArrives =>
  }

  lemma {:induction false} RunOnceDone(s: State, ls: seq<Label>, h: nat, r: nat)
    requires Inv(s) && ValidRun(s, ls) && NoDispatch(ls, h) && Answered(s, h, r)
    ensures var t := Exec(s, ls);
      Answered(t, h, r) && OwnActs(ls, h) + StepsOnceDone(t.handlers[h]) <= StepsOnceDone(s.handlers[h])
    decreases |ls|
  {
    if ls != [] {
      StepOnceDone(s, ls[0], h, r);
      StepKeepsInv(s, ls[0]);
      assert NoDispatch(ls[1..], h);
      RunOnceDone(Step(s, ls[0]), ls[1..], h, r);
    }
  }

  /** A handler whose `txn_done` is set returns after at most three steps of its own, and until
      then nothing can keep it from its next step. */
  lemma AnsweredHandlersLeave(n: nat, m: nat, capacity: nat, before: seq<Label>, ls: seq<Label>, h: nat)
    requires n <= 1 && h < m && ValidRun(Init(n, m, capacity), before)
    requires var s := Exec(Init(n, m, capacity), before);
      && ValidRun(s, ls) && NoDispatch(ls, h) && |s.handlers| == m && Inside(s.handlers[h])
      && s.handlers[h].r < |s.replies| && s.replies[s.handlers[h].r].done
    ensures var t := Exec(Exec(Init(n, m, capacity), before), ls);
      && |t.handlers| == m && OwnActs(ls, h) <= 3
      && (OwnActs(ls, h) == 3 ==> !Inside(t.handlers[h]))
      && (Inside(t.handlers[h]) ==> exists act :: act != Dispatch && HandlerEnabled(t, h, act))
  {
    var i := Init(n, m, capacity);
    InitInv(n, m, capacity);
    RunKeepsInv(i, before);
    var s := Exec(i, before);
    RunKeepsInv(s, ls);
    RunKeepsHandlers(s, ls);
    RunOnceDone(s, ls, h, s.handlers[h].r);
    var t := Exec(s, ls);
    if Inside(t.handlers[h]) {
      var act := HandlerIsFree(t, h);
    }
  }

  // ---------- processing threads ----------

  /** Steps of its own that a processing thread can still take once the process was asked to
      die. */
  function StepsToStop(f: ProcPhase, capacity: nat): nat {
    match f
    case Stopped => 0
    case DrainWait(_) => 1
    case TakeWait => 1
    case LoopHead => 1
    case CheckTime => 2
    case MarkDone(_) => 3
    case Stored(_) => 4
    case Serve(_) => 5
    case TakeUser => 6
    case CheckUser => 7
    case Drain(n) => 2 * n + 8
    case Refreshing(n) => 2 * n + 9
    case Snapshot => 2 * capacity + 9
  }

  function ThreadActs(ls: seq<Label>, p: nat): nat {
    if ls == [] then 0
    else (if ls[0].Proc? && ls[0].p == p then 1 else 0) + ThreadActs(ls[1..], p)
  }

  lemma OwnStepToStop(s: State, p: nat, act: ProcAct)
    requires s.die && s.refreshQueue <= s.capacity && ProcEnabled(s, p, act)
    ensures var t := StepProc(s, p, act);
      t.die && t.refreshQueue <= t.capacity
      && StepsToStop(t.procs[p], t.capacity) + 1 <= StepsToStop(s.procs[p], s.capacity)
  {
  }

  lemma OthersKeepThread(s: State, q: nat, act: ProcAct, p: nat)
    requires s.die && s.refreshQueue <= s.capacity && ProcEnabled(s, q, act) && p < |s.procs| && p != q
    ensures var t := StepProc(s, q, act);
      t.die && t.refreshQueue <= t.capacity && t.procs[p] == s.procs[p]
  {
  }

  lemma StepToStop(s: State, l: Label, p: nat)
    requires s.die && s.refreshQueue <= s.capacity && p < |s.procs| && Enabled(s, l)
    ensures var t := Step(s, l); var own := if l.Proc? && l.p == p then 1 else 0;
      t.die && t.refreshQueue <= t.capacity == s.capacity
      && StepsToStop(t.procs[p], t.capacity) + own <= StepsToStop(s.procs[p], s.capacity)
  {
    match l
    case Proc(q, act) => if q == p { OwnStepToStop(s, p, act); } else { OthersKeepThread(s, q, act, p); }
    case Handler(_, _) =>
    case RefreshArrives =>
  }

  lemma {:induction false} RunToStop(s: State, ls: seq<Label>, p: nat)
    requires s.die && s.refreshQueue <= s.capacity && p < |s.procs| && ValidRun(s, ls)
    ensures var t := Exec(s, ls);
      |t.procs| == |s.procs|
      && ThreadActs(ls, p) + StepsToStop(t.procs[p], t.capacity) <= StepsToStop(s.procs[p], s.capacity)
    decreases |ls|
  {
    if ls != [] {
      StepToStop(s, ls[0], p);
      RunToStop(Step(s, ls[0]), ls[1..], p);
    }
  }

  /** No snapshot of the refresh queue, and no queue, exceeds the capacity. */
  predicate SnapshotsFit(s: State) {
    && s.refreshQueue <= s.capacity
    && forall p :: 0 <= p < |s.procs| ==>
         var f := s.procs[p];
         (f.Drain? ==> f.n <= s.capacity) && (f.DrainWait? || f.Refreshing? ==> f.n < s.capacity)
  }

  lemma ProcKeepsSnapshots(s: State, p: nat, act: ProcAct)
    requires SnapshotsFit(s) && ProcEnabled(s, p, act)
    ensures SnapshotsFit(StepProc(s, p, act))
  {
  }

  lemma {:induction false} RunKeepsSnapshots(s: State, ls: seq<Label>)
    requires SnapshotsFit(s) && ValidRun(s, ls)
    ensures var t := Exec(s, ls); SnapshotsFit(t) && t.capacity == s.capacity && |t.procs| == |s.procs|
    decreases |ls|
  {
    if ls != [] {
      if ls[0].Proc? { ProcKeepsSnapshots(s, ls[0].p, ls[0].does); }
      RunKeepsSnapshots(Step(s, ls[0]), ls[1..]);
    }
  }

  /** Once the process is asked to die every processing thread - any number of them - stops
      within one round of its own steps, blocked in a dequeue or not. */
  lemma ThreadsStop(n: nat, m: nat, capacity: nat, before: seq<Label>, ls: seq<Label>, p: nat)
    requires p < n && ValidRun(Init(n, m, capacity), before)
    requires var s := Exec(Init(n, m, capacity), before); s.die && ValidRun(s, ls)
    ensures var t := Exec(Exec(Init(n, m, capacity), before), ls);
      && |t.procs| == n && ThreadActs(ls, p) <= 2 * capacity + 9
      && (ThreadActs(ls, p) == 2 * capacity + 9 ==> t.procs[p].Stopped?)
  {
    RunKeepsSnapshots(Init(n, m, capacity), before);
    RunToStop(Exec(Init(n, m, capacity), before), ls, p);
  }
}
