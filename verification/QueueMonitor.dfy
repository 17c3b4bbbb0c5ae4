/** The ready queue as a monitor: any number of threads enqueue and dequeue through one mutex
    and two condition variables with timed waits. One label is one critical section. A wait
    may end by a signal, a timeout or spuriously; whoever holds the mutex next may barge in.
    Only a thread that has waited looks at the die flag. */

module QueueMonitor {
  import opened Conditions
  import opened ReadyQueues

  /** What a thread is doing with the queue. `Enter` is before the first look at the queue,
      `Asleep` is inside the timed wait, `Awake` is after it and before the next look. */
  datatype Phase =
    | Idle
    | PutEnter(info: Info) | PutAsleep(info: Info) | PutAwake(info: Info)
    | PutDone(ticket: nat) | PutFailed
    | GetEnter | GetAsleep | GetAwake
    | GetDone(got: Info) | GetFailed

  /** A transaction the queue has accepted, as its producer handed it over. */
  datatype Accepted = Accepted(producer: nat, info: Info)

  /** `accepted` and `delivered` are history. */
  datatype State = State(threads: seq<Phase>, ring: Ring, die: bool,
                         accepted: seq<Accepted>, delivered: seq<Info>)

  datatype Act = CallPut(info: Info) | CallGet | Proceed(woken: set<nat>) | WakeUp

  datatype Label = Thread(t: nat, act: Act) | Die

  predicate Resting(p: Phase) {
    p.Idle? || p.PutDone? || p.PutFailed? || p.GetDone? || p.GetFailed?
  }

  predicate Putting(p: Phase) { p.PutEnter? || p.PutAwake? }

  predicate Getting(p: Phase) { p.GetEnter? || p.GetAwake? }

  /** The thread waited and finds that the process is asked to die. */
  predicate GivesUp(s: State, p: Phase) { s.die && (p.PutAwake? || p.GetAwake?) }

  predicate CanPut(s: State) { s.ring.occupied < |s.ring.slots| }

  predicate CanGet(s: State) { s.ring.occupied > 0 }

  function SleepingGetters(threads: seq<Phase>): set<nat> {
    set i | 0 <= i < |threads| && threads[i].GetAsleep?
  }

  function SleepingPutters(threads: seq<Phase>): set<nat> {
    set i | 0 <= i < |threads| && threads[i].PutAsleep?
  }

  function Roused(p: Phase): Phase {
    match p
    case PutAsleep(info) => PutAwake(info)
    case GetAsleep => GetAwake
    case _ => p
  }

  function Wake(threads: seq<Phase>, woken: set<nat>): (r: seq<Phase>)
    ensures |r| == |threads|
    ensures forall i :: 0 <= i < |r| ==> r[i] == if i in woken then Roused(threads[i]) else threads[i]
  {
    seq(|threads|, i requires 0 <= i < |threads| => if i in woken then Roused(threads[i]) else threads[i])
  }

  predicate Enabled(s: State, l: Label) {
    && Wf(s.ring)
    && match l
       case Die => true
       case Thread(t, act) =>
         && t < |s.threads|
         && var p := s.threads[t];
            match act
            case CallPut(_) => Resting(p)
            case CallGet => Resting(p)
            case WakeUp => p.PutAsleep? || p.GetAsleep?
            case Proceed(woken) =>
              && (Putting(p) || Getting(p))
              && if Putting(p) && !GivesUp(s, p) && CanPut(s) then Signals(woken, SleepingGetters(s.threads))
                 else if Getting(p) && !GivesUp(s, p) && CanGet(s) then Signals(woken, SleepingPutters(s.threads))
                 else woken == {}
  }

  function Advance(s: State, t: nat, woken: set<nat>): State
    requires Enabled(s, Thread(t, Proceed(woken)))
  {
    var p := s.threads[t];
    if Putting(p) then
      if GivesUp(s, p) then s.(threads := s.threads[t := PutFailed])
      else if !CanPut(s) then s.(threads := s.threads[t := PutAsleep(p.info)])
      else
        s.(threads := Wake(s.threads, woken)[t := PutDone(s.ring.ticketReq + 1)],
           ring := Put(s.ring, p.info), accepted := s.accepted + [Accepted(t, p.info)])
    else
      if GivesUp(s, p) then s.(threads := s.threads[t := GetFailed])
      else if !CanGet(s) then s.(threads := s.threads[t := GetAsleep])
      else
        var (got, rest) := Take(s.ring);
        s.(threads := Wake(s.threads, woken)[t := GetDone(got)],
           ring := rest, delivered := s.delivered + [got])
  }

  function Step(s: State, l: Label): State
    requires Enabled(s, l)
  {
    match l
    case Die => s.(die := true)
    case Thread(t, CallPut(info)) => s.(threads := s.threads[t := PutEnter(info)])
    case Thread(t, CallGet) => s.(threads := s.threads[t := GetEnter])
    case Thread(t, WakeUp) => s.(threads := s.threads[t := Roused(s.threads[t])])
    case Thread(t, Proceed(woken)) => Advance(s, t, woken)
  }

  /** An empty queue with the given slots, used by `n` threads. */
  function Init(n: nat, slots: seq<Info>): State {
    State(seq(n, _ => Idle), EmptyRing(slots), false, [], [])
  }

  predicate ValidRun(s: State, ls: seq<Label>)
    decreases |ls|
  {
    ls != [] ==> Enabled(s, ls[0]) && ValidRun(Step(s, ls[0]), ls[1..])
  }

  function Exec(s: State, ls: seq<Label>): State
    requires ValidRun(s, ls)
    decreases |ls|
  {
    if ls == [] then s else Exec(Step(s, ls[0]), ls[1..])
  }

  // ---------- counting threads ----------

  datatype Meter = AwakeGetters | AwakePutters | EffortMeter(n: nat)

  function Reading(meter: Meter, p: Phase): nat {
    match meter
    case AwakeGetters => if p.GetAwake? then 1 else 0
    case AwakePutters => if p.PutAwake? then 1 else 0
    case EffortMeter(n) =>
      if p.PutEnter? || p.GetEnter? then n + 3
      else if p.PutAwake? || p.GetAwake? then n + 2
      else if p.PutAsleep? || p.GetAsleep? then n + 1
      else 0
  }

  function Total(meter: Meter, threads: seq<Phase>): nat {
    if threads == [] then 0 else Reading(meter, threads[0]) + Total(meter, threads[1..])
  }

  lemma {:induction false} TotalUpdate(meter: Meter, threads: seq<Phase>, t: nat, p: Phase)
    requires t < |threads|
    ensures Total(meter, threads[t := p]) + Reading(meter, threads[t]) ==
            Total(meter, threads) + Reading(meter, p)
  {
    if t == 0 {
      assert threads[t := p][1..] == threads[1..];
    } else {
      TotalUpdate(meter, threads[1..], t - 1, p);
      assert threads[t := p][1..] == threads[1..][t - 1 := p];
    }
  }

  /** Waking loses no awake thread, gains one for every sleeper woken, and costs one unit of
      effort each. */
  lemma {:induction false} TotalWake(meter: Meter, threads: seq<Phase>, after: seq<Phase>)
    requires |after| == |threads|
    requires forall i :: 0 <= i < |threads| ==> after[i] == threads[i] || after[i] == Roused(threads[i])
    ensures Total(meter, threads) <= Total(meter, after) <= Total(meter, threads) + |threads|
    ensures (exists i :: 0 <= i < |threads| && Reading(meter, after[i]) > Reading(meter, threads[i])) ==>
              Total(meter, after) > Total(meter, threads)
  {
    if threads != [] {
      TotalWake(meter, threads[1..], after[1..]);
      if i :| 0 <= i < |threads| && Reading(meter, after[i]) > Reading(meter, threads[i]) {
        if i > 0 {
          assert after[1..][i - 1] == after[i] && threads[1..][i - 1] == threads[i];
        }
      }
    }
  }

  // ---------- no lost wake-up ----------

  /** While nobody asks to die, a consumer sleeps only if the awake ones can take all that is
      queued, and a producer sleeps only if the awake ones can fill all that is free. */
  ghost predicate NoLostWakeUp(s: State) {
    !s.die ==>
      && (SleepingGetters(s.threads) != {} ==> s.ring.occupied <= Total(AwakeGetters, s.threads))
      && (SleepingPutters(s.threads) != {} ==>
            |s.ring.slots| - s.ring.occupied <= Total(AwakePutters, s.threads))
  }

  lemma Moved(s: State, t: nat, p: Phase)
    requires t < |s.threads|
    ensures var after := s.threads[t := p];
      && Total(AwakeGetters, after) + Reading(AwakeGetters, s.threads[t]) ==
         Total(AwakeGetters, s.threads) + Reading(AwakeGetters, p)
      && Total(AwakePutters, after) + Reading(AwakePutters, s.threads[t]) ==
         Total(AwakePutters, s.threads) + Reading(AwakePutters, p)
      && SleepingGetters(after) == SleepingGetters(s.threads) - {t} + (if p.GetAsleep? then {t} else {})
      && SleepingPutters(after) == SleepingPutters(s.threads) - {t} + (if p.PutAsleep? then {t} else {})
  {
    TotalUpdate(AwakeGetters, s.threads, t, p);
    TotalUpdate(AwakePutters, s.threads, t, p);
  }

  lemma Woke(threads: seq<Phase>, woken: set<nat>)
    requires woken <= SleepingGetters(threads) || woken <= SleepingPutters(threads)
    ensures var after := Wake(threads, woken);
      && Total(AwakeGetters, after) >= Total(AwakeGetters, threads)
         + (if woken * SleepingGetters(threads) != {} then 1 else 0)
      && Total(AwakePutters, after) >= Total(AwakePutters, threads)
         + (if woken * SleepingPutters(threads) != {} then 1 else 0)
      && SleepingGetters(after) == SleepingGetters(threads) - woken
      && SleepingPutters(after) == SleepingPutters(threads) - woken
  {
    var after := Wake(threads, woken);
    TotalWake(AwakeGetters, threads, after);
    TotalWake(AwakePutters, threads, after);
    if i :| i in woken * SleepingGetters(threads) {
      assert Reading(AwakeGetters, after[i]) > Reading(AwakeGetters, threads[i]);
    }
    if i :| i in woken * SleepingPutters(threads) {
      assert Reading(AwakePutters, after[i]) > Reading(AwakePutters, threads[i]);
    }
  }

  lemma PutKeepsWakeUps(s: State, t: nat, woken: set<nat>)
    requires NoLostWakeUp(s) && Enabled(s, Thread(t, Proceed(woken)))
    requires Putting(s.threads[t]) && !GivesUp(s, s.threads[t]) && CanPut(s)
    ensures NoLostWakeUp(Advance(s, t, woken))
  {
    Woke(s.threads, woken);
    Moved(s.(threads := Wake(s.threads, woken)), t, Advance(s, t, woken).threads[t]);
  }

  lemma GetKeepsWakeUps(s: State, t: nat, woken: set<nat>)
    requires NoLostWakeUp(s) && Enabled(s, Thread(t, Proceed(woken)))
    requires Getting(s.threads[t]) && !GivesUp(s, s.threads[t]) && CanGet(s)
    ensures NoLostWakeUp(Advance(s, t, woken))
  {
    Woke(s.threads, woken);
    Moved(s.(threads := Wake(s.threads, woken)), t, Advance(s, t, woken).threads[t]);
  }

  lemma AdvanceKeepsWakeUps(s: State, t: nat, woken: set<nat>)
    requires NoLostWakeUp(s) && Enabled(s, Thread(t, Proceed(woken)))
    ensures NoLostWakeUp(Advance(s, t, woken))
  {
    var p := s.threads[t];
    if Putting(p) && !GivesUp(s, p) && CanPut(s) {
      PutKeepsWakeUps(s, t, woken);
    } else if Getting(p) && !GivesUp(s, p) && CanGet(s) {
      GetKeepsWakeUps(s, t, woken);
    } else {
      Moved(s, t, Advance(s, t, woken).threads[t]);
    }
  }

  lemma StepKeepsWakeUps(s: State, l: Label)
    requires NoLostWakeUp(s) && Enabled(s, l)
    ensures NoLostWakeUp(Step(s, l))
  {
    if l.Thread? {
      if l.act.Proceed? {
        AdvanceKeepsWakeUps(s, l.t, l.act.woken);
      } else {
        Moved(s, l.t, Step(s, l).threads[l.t]);
      }
    }
  }

  // ---------- the log ----------

  /** The accepted transactions, each under the number of its acceptance. */
  function Numbering(accepted: seq<Accepted>): (r: seq<Info>)
    ensures |r| == |accepted|
    ensures forall k :: 0 <= k < |r| ==> r[k] == accepted[k].info.(ticket := k + 1)
  {
    seq(|accepted|, k requires 0 <= k < |accepted| => accepted[k].info.(ticket := k + 1))
  }

  /** The queue is the undelivered part of the numbered log of accepted transactions. */
  ghost predicate Remaining(ring: Ring, delivered: seq<Info>, accepted: seq<Accepted>) {
    && Wf(ring) && ring.ticketReq == |accepted|
    && delivered + Contents(ring) == Numbering(accepted)
  }

  ghost predicate LogOk(s: State) { Remaining(s.ring, s.delivered, s.accepted) }

  /** A thread that was handed a ticket is the producer of the transaction of that number. */
  predicate HolderOk(p: Phase, t: nat, accepted: seq<Accepted>) {
    p.PutDone? ==> 0 < p.ticket <= |accepted| && accepted[p.ticket - 1].producer == t
  }

  ghost predicate HoldersOk(s: State) {
    forall t :: 0 <= t < |s.threads| ==> HolderOk(s.threads[t], t, s.accepted)
  }

  lemma PutExtendsLog(ring: Ring, delivered: seq<Info>, accepted: seq<Accepted>, a: Accepted)
    requires Remaining(ring, delivered, accepted) && ring.occupied < |ring.slots|
    ensures Remaining(Put(ring, a.info), delivered, accepted + [a])
  {
    PutAppends(ring, a.info);
    assert Numbering(accepted + [a]) == Numbering(accepted) + [a.info.(ticket := |accepted| + 1)];
  }

  lemma TakeDeliversLog(ring: Ring, delivered: seq<Info>, accepted: seq<Accepted>)
    requires Remaining(ring, delivered, accepted) && ring.occupied > 0
    ensures Remaining(Take(ring).1, delivered + [Take(ring).0], accepted)
  {
    TakeRemovesOldest(ring);
    assert delivered + [Take(ring).0] + Contents(Take(ring).1) == delivered + Contents(ring);
  }

  lemma AdvanceKeepsHolders(s: State, t: nat, woken: set<nat>)
    requires s.ring.ticketReq == |s.accepted| && HoldersOk(s) && Enabled(s, Thread(t, Proceed(woken)))
    ensures HoldersOk(Advance(s, t, woken))
  {
    var s' := Advance(s, t, woken);
    assert HolderOk(s'.threads[t], t, s'.accepted);
    forall u | 0 <= u < |s'.threads| && u != t ensures HolderOk(s'.threads[u], u, s'.accepted) {
      assert HolderOk(s.threads[u], u, s.accepted);
      assert s'.threads[u] == s.threads[u] || s'.threads[u] == Roused(s.threads[u]);
    }
  }

  lemma StepKeepsLog(s: State, l: Label)
    requires LogOk(s) && HoldersOk(s) && Enabled(s, l)
    ensures LogOk(Step(s, l)) && HoldersOk(Step(s, l))
  {
    if l.Thread? && l.act.Proceed? {
      AdvanceKeepsHolders(s, l.t, l.act.woken);
      var p := s.threads[l.t];
      if Putting(p) && !GivesUp(s, p) && CanPut(s) {
        PutExtendsLog(s.ring, s.delivered, s.accepted, Accepted(l.t, p.info));
      } else if Getting(p) && !GivesUp(s, p) && CanGet(s) {
        TakeDeliversLog(s.ring, s.delivered, s.accepted);
      }
    }
  }

  // ---------- runs ----------

  ghost predicate Inv(s: State) { LogOk(s) && HoldersOk(s) && NoLostWakeUp(s) }

  lemma {:induction false} RunKeepsInv(s: State, ls: seq<Label>)
    requires Inv(s) && ValidRun(s, ls)
    ensures Inv(Exec(s, ls))
    decreases |ls|
  {
    if ls != [] {
      StepKeepsLog(s, ls[0]);
      StepKeepsWakeUps(s, ls[0]);
      RunKeepsInv(Step(s, ls[0]), ls[1..]);
    }
  }

  lemma InitInv(n: nat, slots: seq<Info>)
    requires 0 < |slots|
    ensures Inv(Init(n, slots))
  {
    EmptyRingIsEmpty(slots);
    assert SleepingGetters(Init(n, slots).threads) == {} == SleepingPutters(Init(n, slots).threads);
  }

  /** Every interleaving keeps the wake-up guarantee. */
  lemma WakeUpsAreNeverLost(n: nat, slots: seq<Info>, ls: seq<Label>)
    requires 0 < |slots| && ValidRun(Init(n, slots), ls)
    ensures NoLostWakeUp(Exec(Init(n, slots), ls))
  {
    InitInv(n, slots);
    RunKeepsInv(Init(n, slots), ls);
  }

  /** Dequeues deliver tickets 1, 2, 3, ... each once; the transaction delivered under a ticket
      is the one its producer enqueued, reply pointers included; and a producer that was
      handed a ticket is the one whose transaction carries it. */
  lemma TicketsNumberTheLog(n: nat, slots: seq<Info>, ls: seq<Label>)
    requires 0 < |slots| && ValidRun(Init(n, slots), ls)
    ensures var s := Exec(Init(n, slots), ls);
      && |s.delivered| <= |s.accepted| == s.ring.ticketReq
      && (forall k :: 0 <= k < |s.delivered| ==> s.delivered[k] == s.accepted[k].info.(ticket := k + 1))
      && (forall t :: 0 <= t < |s.threads| ==> HolderOk(s.threads[t], t, s.accepted))
      && Wf(s.ring)
      && (forall i :: 0 <= i < s.ring.occupied ==>
            Contents(s.ring)[i].ticket == s.ring.ticketReq - s.ring.occupied + i + 1)
  {
    InitInv(n, slots);
    RunKeepsInv(Init(n, slots), ls);
    var s := Exec(Init(n, slots), ls);
    forall k | 0 <= k < |s.delivered|
      ensures s.delivered[k] == s.accepted[k].info.(ticket := k + 1)
    {
      assert (s.delivered + Contents(s.ring))[k] == s.delivered[k];
    }
    forall i | 0 <= i < s.ring.occupied
      ensures Contents(s.ring)[i].ticket == s.ring.ticketReq - s.ring.occupied + i + 1
    {
      assert (s.delivered + Contents(s.ring))[|s.delivered| + i] == Contents(s.ring)[i];
    }
  }

  // ---------- progress without timeouts ----------

  predicate OwnRun(ls: seq<Label>) {
    forall i :: 0 <= i < |ls| ==> ls[i].Thread? && ls[i].act.Proceed?
  }

  ghost predicate Quiescent(s: State) {
    forall t, woken :: !Enabled(s, Thread(t, Proceed(woken)))
  }

  function Effort(s: State): nat { Total(EffortMeter(|s.threads|), s.threads) }

  /** A thread that gets through pays for everyone it wakes. */
  lemma FinishCosts(threads: seq<Phase>, t: nat, woken: set<nat>, p: Phase)
    requires t < |threads| && (Putting(threads[t]) || Getting(threads[t])) && Resting(p)
    ensures var meter := EffortMeter(|threads|);
      Total(meter, Wake(threads, woken)[t := p]) < Total(meter, threads)
  {
    var meter, after := EffortMeter(|threads|), Wake(threads, woken);
    TotalWake(meter, threads, after);
    assert after[t] == threads[t] by { EffortOf(threads[t], |threads|); }
    EffortOf(threads[t], |threads|);
    EffortOf(p, |threads|);
    TotalUpdate(meter, after, t, p);
  }

  lemma EffortOf(p: Phase, n: nat)
    ensures Putting(p) || Getting(p) ==> Reading(EffortMeter(n), p) >= n + 2 && Roused(p) == p
    ensures Resting(p) ==> Reading(EffortMeter(n), p) == 0
  {
  }

  lemma AdvanceCosts(s: State, t: nat, woken: set<nat>)
    requires Enabled(s, Thread(t, Proceed(woken)))
    ensures Effort(Advance(s, t, woken)) < Effort(s)
    ensures |Advance(s, t, woken).threads| == |s.threads|
  {
    var p := s.threads[t];
    var after := Advance(s, t, woken).threads;
    if !GivesUp(s, p) && (if Putting(p) then CanPut(s) else CanGet(s)) {
      FinishCosts(s.threads, t, woken, after[t]);
    } else {
      TotalUpdate(EffortMeter(|s.threads|), s.threads, t, after[t]);
    }
  }

  lemma {:induction false} OwnRunsAreBounded(s: State, ls: seq<Label>)
    requires ValidRun(s, ls) && OwnRun(ls)
    ensures |ls| + Effort(Exec(s, ls)) <= Effort(s) && Exec(s, ls).die == s.die
    decreases |ls|
  {
    if ls != [] {
      AdvanceCosts(s, ls[0].t, ls[0].act.woken);
      OwnRunsAreBounded(Step(s, ls[0]), ls[1..]);
    }
  }

  /** Even if no wait ever times out: threads that just go on settle within a bounded number
      of steps, and then a thread still waiting to dequeue faces an empty queue, and one still
      waiting to enqueue a full one. */
  lemma WaitersHaveAReason(n: nat, slots: seq<Info>, before: seq<Label>, own: seq<Label>)
    requires 0 < |slots| && ValidRun(Init(n, slots), before)
    requires var s := Exec(Init(n, slots), before); ValidRun(s, own) && OwnRun(own) && !s.die
    ensures var s := Exec(Init(n, slots), before); var t := Exec(s, own);
      && |own| <= Effort(s)
      && (Quiescent(t) ==>
            && (SleepingGetters(t.threads) != {} ==> t.ring.occupied == 0)
            && (SleepingPutters(t.threads) != {} ==> t.ring.occupied >= |t.ring.slots|)
            && forall i :: 0 <= i < |t.threads| ==>
                 Resting(t.threads[i]) || t.threads[i].GetAsleep? || t.threads[i].PutAsleep?)
  {
    var s := Exec(Init(n, slots), before);
    InitInv(n, slots);
    RunKeepsInv(Init(n, slots), before);
    RunKeepsInv(s, own);
    OwnRunsAreBounded(s, own);
    var t := Exec(s, own);
    if Quiescent(t) {
      SettledIsWaiting(t);
    }
  }

  lemma SettledIsWaiting(t: State)
    requires Wf(t.ring) && Quiescent(t)
    ensures forall i :: 0 <= i < |t.threads| ==>
              Resting(t.threads[i]) || t.threads[i].GetAsleep? || t.threads[i].PutAsleep?
    ensures Total(AwakeGetters, t.threads) == 0 == Total(AwakePutters, t.threads)
  {
    forall i | 0 <= i < |t.threads| ensures !Putting(t.threads[i]) && !Getting(t.threads[i]) {
      assert !Enabled(t, Thread(i, Proceed({})));
      assert !Enabled(t, Thread(i, Proceed(SleepingGetters(t.threads))));
      assert !Enabled(t, Thread(i, Proceed(SleepingPutters(t.threads))));
    }
    NobodyAwake(t.threads);
  }

  lemma {:induction false} NobodyAwake(threads: seq<Phase>)
    requires forall i :: 0 <= i < |threads| ==> !threads[i].GetAwake? && !threads[i].PutAwake?
    ensures Total(AwakeGetters, threads) == 0 == Total(AwakePutters, threads)
  {
    if threads != [] {
      NobodyAwake(threads[1..]);
    }
  }
}
