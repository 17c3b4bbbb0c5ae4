/** What handlers report, in terms of what the processing thread computed for them. */

module Answers {
  import opened ReadyQueues
  import opened Server
  import opened Handshake

  /** The result codes that processing produced, in this run, for request `r` while it was being
      executed: the arguments of the stores, in their order. */
  function Results(s: State, ls: seq<Label>, r: nat): seq<int>
    requires ValidRun(s, ls)
    decreases |ls|
  {
    if ls == [] then []
    else (if Executes(s, ls[0], r) then [ls[0].does.result] else []) + Results(Step(s, ls[0]), ls[1..], r)
  }

  /** The step ends the execution of request `r` with a result. */
  predicate Executes(s: State, l: Label, r: nat) {
    l.Proc? && l.does.StoreRc? && l.p < |s.procs| && s.procs[l.p].Serve? && s.procs[l.p].e.request == r
  }

  lemma OutcomeByProc(s: State, p: nat, act: ProcAct)
    requires ProcEnabled(s, p, act)
    ensures StepProc(s, p, act).outcome ==
            if act.StoreRc? then s.outcome[s.procs[p].e.request := act.result] else s.outcome
  {
    if Local(act) { LocalStep(s, p, act); }
  }

  lemma OutcomeByStep(s: State, l: Label, r: nat)
    requires Inv(s) && Enabled(s, l)
    ensures var t := Step(s, l);
      if Executes(s, l, r) then r !in s.outcome && r in t.outcome && t.outcome[r] == l.does.result
      else (r in t.outcome <==> r in s.outcome) && (r in s.outcome ==> t.outcome[r] == s.outcome[r])
  {
    match l
    case Proc(p, act) => OutcomeByProc(s, p, act);
    case Handler(_, _) =>
    case RefreshArrives =>
  }

  /** The history variable is the result that the run produced, and there is at most one. */
  lemma {:induction false} OutcomeIsResult(s: State, ls: seq<Label>, r: nat)
    requires Inv(s) && ValidRun(s, ls)
    ensures var t := Exec(s, ls); var results := Results(s, ls, r);
      if r in s.outcome then results == [] && r in t.outcome && t.outcome[r] == s.outcome[r]
      else |results| <= 1 && (r in t.outcome <==> results != [])
           && (results != [] ==> t.outcome[r] == results[0])
    decreases |ls|
  {
    if ls != [] {
      OutcomeByStep(s, ls[0], r);
      StepKeepsInv(s, ls[0]);
      OutcomeIsResult(Step(s, ls[0]), ls[1..], r);
    }
  }

  /** What the invariant says about a handler that has returned. */
  lemma ReturnedHandler(s: State, h: nat)
    requires HandlersOk(s) && AnswersOk(s) && h < |s.handlers| && s.handlers[h].Returned?
    ensures var f := s.handlers[h];
      && f.r < |s.replies| && s.replies[f.r].owner == h
      && match f.report
         case Reported(rc) => rc == Answer(s.outcome, f.r) && (s.die || s.replies[f.r].done)
         case NotEnqueued =>
           && s.die && f.r !in s.outcome
           && forall k :: 0 <= k < |s.userQueue| ==> s.userQueue[k].request != f.r
  {
    assert Left(s.handlers[h]) || Unqueued(s.handlers[h]);
  }

  /** Each handler reports what was computed for its own request. With one processing thread, in
      every run: a request is executed at most once; a handler that reports a code reports the
      result of that execution, and FAIL if there was none; it leaves only because its request
      was answered or the process is dying; and one that could not enqueue its request was
      never served. */
  lemma ReportsAreResults(m: nat, capacity: nat, ls: seq<Label>, h: nat)
    requires ValidRun(Init(1, m, capacity), ls) && h < |Exec(Init(1, m, capacity), ls).handlers|
    ensures var i := Init(1, m, capacity); var s := Exec(i, ls); var f := s.handlers[h];
      f.Returned? ==>
        && f.r < |s.replies| && s.replies[f.r].owner == h && |Results(i, ls, f.r)| <= 1
        && match f.report
           case Reported(rc) =>
             && rc == (if Results(i, ls, f.r) == [] then FAIL else Results(i, ls, f.r)[0])
             && (s.die || s.replies[f.r].done)
           case NotEnqueued =>
             && s.die && Results(i, ls, f.r) == []
             && forall k :: 0 <= k < |s.userQueue| ==> s.userQueue[k].request != f.r
  {
    var i := Init(1, m, capacity);
    InitInv(1, m, capacity);
    RunKeepsInv(i, ls);
    var s := Exec(i, ls);
    if s.handlers[h].Returned? {
      ReturnedHandler(s, h);
      OutcomeIsResult(i, ls, s.handlers[h].r);
    }
  }
}
