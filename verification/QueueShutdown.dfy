/** The ready queue when the process is asked to die: a thread that has waited gives up, one
    that has not is still served. */

module QueueShutdown {
  import opened Conditions
  import opened ReadyQueues
  import opened QueueMonitor

  lemma {:induction false} DieOverRuns(s: State, ls: seq<Label>)
    requires ValidRun(s, ls)
    ensures Exec(s, ls).die <==> s.die || Die in ls
    decreases |ls|
  {
    if ls != [] {
      DieOverRuns(Step(s, ls[0]), ls[1..]);
    }
  }

  /** The flag is set exactly when somebody has asked, and stays. */
  lemma DieMeansAsked(n: nat, slots: seq<Info>, ls: seq<Label>)
    requires ValidRun(Init(n, slots), ls)
    ensures Exec(Init(n, slots), ls).die <==> Die in ls
  {
    DieOverRuns(Init(n, slots), ls);
  }

  // ---------- one look at the queue ----------

  /** The step changes nothing but the phase of thread `t`. */
  predicate OnlyMoves(s: State, s': State, t: nat, p: Phase)
    requires t < |s.threads|
  {
    s' == s.(threads := s.threads[t := p])
  }

  /** What a producer does when it holds the mutex: it fails if it has waited and the process is
      dying, stores its transaction under the next ticket if there is room - dying or not - and
      goes to sleep otherwise. */
  lemma ProducerDecides(s: State, t: nat, woken: set<nat>)
    requires Enabled(s, Thread(t, Proceed(woken))) && (s.threads[t].PutEnter? || s.threads[t].PutAwake?)
    ensures var s' := Step(s, Thread(t, Proceed(woken))); var p := s.threads[t];
      if s.die && p.PutAwake? then OnlyMoves(s, s', t, PutFailed)
      else if s.ring.occupied == |s.ring.slots| then OnlyMoves(s, s', t, PutAsleep(p.info))
      else
        var n := s.ring.ticketReq + 1;
        && s'.threads[t] == PutDone(n) && s'.die == s.die && s'.delivered == s.delivered
        && Wf(s'.ring) && Contents(s'.ring) == Contents(s.ring) + [p.info.(ticket := n)]
        && s'.ring.ticketReq == n && s'.accepted == s.accepted + [Accepted(t, p.info)]
  {
    if s.ring.occupied < |s.ring.slots| {
      PutAppends(s.ring, s.threads[t].info);
    }
  }

  /** The same for a consumer. */
  lemma ConsumerDecides(s: State, t: nat, woken: set<nat>)
    requires Enabled(s, Thread(t, Proceed(woken))) && (s.threads[t].GetEnter? || s.threads[t].GetAwake?)
    ensures var s' := Step(s, Thread(t, Proceed(woken))); var p := s.threads[t];
      if s.die && p.GetAwake? then OnlyMoves(s, s', t, GetFailed)
      else if s.ring.occupied == 0 then OnlyMoves(s, s', t, GetAsleep)
      else
        && Wf(s'.ring) && Contents(s.ring) == [Contents(s.ring)[0]] + Contents(s'.ring)
        && s'.threads[t] == GetDone(Contents(s.ring)[0]) && s'.die == s.die
        && s'.ring.ticketReq == s.ring.ticketReq && s'.accepted == s.accepted
        && s'.delivered == s.delivered + [Contents(s.ring)[0]]
  {
    if s.ring.occupied > 0 {
      TakeRemovesOldest(s.ring);
    }
  }

  // ---------- dying threads leave ----------

  /** Steps of its own that a thread can still take inside its call once the process is dying. */
  function StepsToRest(p: Phase): nat {
    match p
    case PutEnter(_) => 3
    case GetEnter => 3
    case PutAsleep(_) => 2
    case GetAsleep => 2
    case PutAwake(_) => 1
    case GetAwake => 1
    case _ => 0
  }

  /** How often thread `t` wakes up by itself or looks at the queue. */
  function OwnActs(ls: seq<Label>, t: nat): nat {
    if ls == [] then 0
    else (if ls[0].Thread? && ls[0].t == t then 1 else 0) + OwnActs(ls[1..], t)
  }

  /** Thread `t` makes no new call. */
  predicate NoCall(ls: seq<Label>, t: nat) {
    forall i :: 0 <= i < |ls| && ls[i].Thread? && ls[i].t == t ==> ls[i].act.Proceed? || ls[i].act.WakeUp?
  }

  /** The thread is waiting, or has failed, in a call to enqueue respectively dequeue. */
  predicate WaitsToPut(p: Phase) { p.PutAsleep? || p.PutAwake? || p.PutFailed? }

  predicate WaitsToGet(p: Phase) { p.GetAsleep? || p.GetAwake? || p.GetFailed? }

  /** What one step leaves of a thread's way out. */
  predicate Closer(s: State, s': State, t: nat, own: nat)
    requires t < |s.threads|
  {
    && |s'.threads| == |s.threads|
    && var p, q := s.threads[t], s'.threads[t];
    && StepsToRest(q) + own <= StepsToRest(p)
    && (WaitsToPut(p) ==> WaitsToPut(q)) && (WaitsToGet(p) ==> WaitsToGet(q))
    && s.accepted <= s'.accepted
    && (WaitsToPut(p) || WaitsToGet(p) ==>
          forall k :: |s.accepted| <= k < |s'.accepted| ==> s'.accepted[k].producer != t)
  }

  lemma OwnLookIsCloser(s: State, t: nat, woken: set<nat>)
    requires s.die && Enabled(s, Thread(t, Proceed(woken)))
    ensures Closer(s, Step(s, Thread(t, Proceed(woken))), t, 1)
  {
    if s.threads[t].PutEnter? || s.threads[t].PutAwake? {
      ProducerDecides(s, t, woken);
    } else {
      ConsumerDecides(s, t, woken);
    }
  }

  lemma OtherLookIsHarmless(s: State, u: nat, woken: set<nat>, t: nat)
    requires Enabled(s, Thread(u, Proceed(woken))) && t < |s.threads| && t != u
    ensures Closer(s, Step(s, Thread(u, Proceed(woken))), t, 0)
  {
    var s' := Step(s, Thread(u, Proceed(woken)));
    assert s'.threads[t] == s.threads[t] || s'.threads[t] == Roused(s.threads[t]);
  }

  lemma StepIsCloser(s: State, l: Label, t: nat)
    requires s.die && Enabled(s, l) && t < |s.threads|
    requires l.Thread? && l.t == t ==> l.act.Proceed? || l.act.WakeUp?
    ensures Closer(s, Step(s, l), t, if l.Thread? && l.t == t then 1 else 0)
  {
    if l.Thread? && l.act.Proceed? {
      if l.t == t { OwnLookIsCloser(s, t, l.act.woken); } else { OtherLookIsHarmless(s, l.t, l.act.woken, t); }
    }
  }

  lemma {:induction false} RunIsCloser(s: State, ls: seq<Label>, t: nat)
    requires s.die && ValidRun(s, ls) && t < |s.threads| && NoCall(ls, t)
    ensures Closer(s, Exec(s, ls), t, OwnActs(ls, t))
    decreases |ls|
  {
    if ls != [] {
      StepIsCloser(s, ls[0], t);
      assert NoCall(ls[1..], t);
      RunIsCloser(Step(s, ls[0]), ls[1..], t);
    }
  }

  /** Nothing can keep a thread inside a call from its next step: a sleeper's wait times out. */
  lemma ThreadIsFree(s: State, t: nat) returns (act: Act)
    requires Wf(s.ring) && t < |s.threads| && !Resting(s.threads[t])
    ensures (act.Proceed? || act.WakeUp?) && Enabled(s, Thread(t, act))
  {
    var p := s.threads[t];
    if p.PutAsleep? || p.GetAsleep? {
      act := WakeUp;
    } else if s.die && (p.PutAwake? || p.GetAwake?) {
      act := Proceed({});
    } else if Putting(p) {
      act := Proceed(if CanPut(s) then SleepingGetters(s.threads) else {});
    } else {
      act := Proceed(if CanGet(s) then SleepingPutters(s.threads) else {});
    }
  }

  /** Once the process is asked to die every call ends after at most three steps of its own
      thread, wake-ups included, none of which can be kept from happening. A call that had
      already waited fails, and none of its transactions gets into the queue. */
  lemma DyingCallsEnd(n: nat, slots: seq<Info>, before: seq<Label>, ls: seq<Label>, t: nat)
    requires 0 < |slots| && t < n && ValidRun(Init(n, slots), before) && Die in before
    requires ValidRun(Exec(Init(n, slots), before), ls) && NoCall(ls, t)
    ensures var s := Exec(Init(n, slots), before); var u := Exec(s, ls);
      && |s.threads| == |u.threads| == n
      && OwnActs(ls, t) <= 3 && (OwnActs(ls, t) == 3 ==> Resting(u.threads[t]))
      && (!Resting(u.threads[t]) ==>
            exists act: Act :: (act.Proceed? || act.WakeUp?) && Enabled(u, Thread(t, act)))
      && (s.threads[t].PutAsleep? || s.threads[t].PutAwake? ==>
            (Resting(u.threads[t]) ==> u.threads[t] == PutFailed)
            && forall k :: |s.accepted| <= k < |u.accepted| ==> u.accepted[k].producer != t)
      && (s.threads[t].GetAsleep? || s.threads[t].GetAwake? ==>
            Resting(u.threads[t]) ==> u.threads[t] == GetFailed)
  {
    var i := Init(n, slots);
    InitInv(n, slots);
    RunKeepsInv(i, before);
    RunKeepsThreads(i, before);
    DieMeansAsked(n, slots, before);
    var s := Exec(i, before);
    RunKeepsInv(s, ls);
    RunIsCloser(s, ls, t);
    var u := Exec(s, ls);
    if !Resting(u.threads[t]) {
      var act := ThreadIsFree(u, t);
    }
  }

  lemma {:induction false} RunKeepsThreads(s: State, ls: seq<Label>)
    requires ValidRun(s, ls)
    ensures |Exec(s, ls).threads| == |s.threads|
    decreases |ls|
  {
    if ls != [] {
      RunKeepsThreads(Step(s, ls[0]), ls[1..]);
    }
  }
}
