/** Termination of `thpool_destroy`: each round of "poll, post to all, let the pool settle"
    releases a worker, whatever clients and waiters do meanwhile, so the polling loops end
    after at most as many rounds as there are live workers. Running jobs are assumed to
    return. */

module PoolShutdown {
  import opened ThreadPool
  import opened PoolSafety
  import opened PoolProgress
  import opened PoolWait

  /** A worker that took the one token of this round. */
  predicate Released(p: Phase) { p.KeepTest? || p.LoopTest? || p.Leaving? || p.Exited? }

  predicate Blocked(p: Phase) { p.SemAsleep? || p.SemAwake? || p.Exited? }

  /** During a round that began with `base` live workers either the token is still there and
      everybody blocked is awake, or exactly one worker took it and is on its way out. */
  ghost predicate InRound(s: State, base: int) {
    && |s.late| == |s.workers| && !s.keepalive && s.mutex.QueueFree?
    && if s.bit then
         s.alive == base && forall w :: 0 <= w < |s.workers| ==> s.workers[w].SemAwake? || s.workers[w].Exited?
       else
         exists w :: 0 <= w < |s.workers| && OnlyReleased(s, w, base)
  }

  ghost predicate OnlyReleased(s: State, w: nat, base: int)
    requires w < |s.workers|
  {
    && Released(s.workers[w])
    && (forall v :: 0 <= v < |s.workers| && v != w ==> Blocked(s.workers[v]))
    && s.alive == if s.workers[w].Exited? then base - 1 else base
  }

  lemma WorkerKeepsRound(s: State, base: int, w: nat, act: WorkerAct)
    requires InRound(s, base) && WorkerEnabled(s, w, act)
    ensures InRound(StepWorker(s, w, act), base)
  {
    var t := StepWorker(s, w, act);
    if s.bit {
      if act.SemTest? { assert OnlyReleased(t, w, base); }
    } else {
      var v :| 0 <= v < |s.workers| && OnlyReleased(s, v, base);
      assert OnlyReleased(t, v, base);
    }
  }

  lemma {:induction false} OwnRunKeepsRound(s: State, base: int, ls: seq<Label>)
    requires InRound(s, base) && ValidRun(s, ls) && OwnRun(ls)
    ensures InRound(Exec(s, ls), base)
    decreases |ls|
  {
    if ls != [] {
      OwnStepKeepsRound(s, base, ls[0]);
      OwnRunKeepsRound(Step(s, ls[0]), base, ls[1..]);
    }
  }

  lemma OwnStepKeepsRound(s: State, base: int, l: Label)
    requires InRound(s, base) && Enabled(s, l) && OwnStep(l)
    ensures InRound(Step(s, l), base)
  {
    if l.Worker? {
      WorkerKeepsRound(s, base, l.w, l.does);
    } else if !s.bit {
      var w :| 0 <= w < |s.workers| && OnlyReleased(s, w, base);
      assert OnlyReleased(Step(s, l), w, base);
    }
  }

  /** The destroyer looks again in a pool that has settled. */
  ghost predicate Poised(s: State) {
    Inv(s) && Quiescent(s) && s.destroy.Polling?
  }

  predicate NoDestroyer(ls: seq<Label>) { forall i :: 0 <= i < |ls| ==> !ls[i].Destroyer? }

  /** One round: the destroyer polls and posts to all, then everybody else goes on - workers,
      clients that still add jobs, waiters, woken spuriously or not. */
  predicate RoundRun(s: State, rest: seq<Label>) {
    ValidRun(s, [Destroyer(DestroyPoll), Destroyer(DestroyPost)] + rest) && NoDestroyer(rest)
  }

  function AfterRound(s: State, rest: seq<Label>): State
    requires RoundRun(s, rest)
  {
    Exec(s, [Destroyer(DestroyPoll), Destroyer(DestroyPost)] + rest)
  }

  lemma RoundUnfolds(s: State, rest: seq<Label>)
    requires RoundRun(s, rest)
    ensures s.destroy.Polling? && s.alive != 0 && |s.late| == |s.workers|
    ensures var p := StepDestroy(s.(destroy := MustPost), DestroyPost);
            ValidRun(p, rest) && AfterRound(s, rest) == Exec(p, rest)
  {
    var ls := [Destroyer(DestroyPoll), Destroyer(DestroyPost)] + rest;
    assert ls[1..][0] == Destroyer(DestroyPost) && ls[1..][1..] == rest;
    var q := Step(s, ls[0]);
    assert ValidRun(q, ls[1..]);
    assert Exec(s, ls) == Exec(q, ls[1..]);
    assert Exec(q, ls[1..]) == Exec(Step(q, ls[1..][0]), ls[1..][1..]);
  }

  lemma PostKeepsInv(s: State) returns (p: State)
    requires Inv(s) && s.destroy.Polling? && s.alive != 0
    ensures p == StepDestroy(s.(destroy := MustPost), DestroyPost) && Inv(p)
  {
    var q := s.(destroy := MustPost);
    p := StepDestroy(q, DestroyPost);
    StepKeepsInv(s, Destroyer(DestroyPoll));
    StepKeepsInv(q, Destroyer(DestroyPost));
  }

  lemma PostStartsRound(s: State)
    requires Poised(s) && s.alive != 0
    ensures InRound(StepDestroy(s.(destroy := MustPost), DestroyPost), s.alive)
  {
    SettledShape(s);
    assert forall w :: 0 <= w < |s.workers| && s.workers[w].SemAsleep? ==> w in Asleep(s.workers);
  }

  lemma RoundEnds(t: State, base: int)
    requires Inv(t) && Quiescent(t) && InRound(t, base) && base != 0
    ensures t.alive == base - 1
  {
    SettledShape(t);
    TotalExtremes(AliveMeter, t.workers);
  }

  /** One round of a settled pool that is left to itself, however scheduled, lets exactly one
      live worker go. */
  lemma RoundReleasesOne(s: State, own: seq<Label>)
    requires Poised(s) && RoundRun(s, own) && OwnRun(own) && Quiescent(AfterRound(s, own))
    ensures var t := AfterRound(s, own); Poised(t) && t.alive == s.alive - 1
  {
    RoundUnfolds(s, own);
    var p := PostKeepsInv(s);
    PostStartsRound(s);
    RunKeepsInv(p, own);
    OwnRunKeepsRound(p, s.alive, own);
    OwnRunsKeepAlive(p, own);
    RoundEnds(AfterRound(s, own), s.alive);
  }

  // ---------- rounds that others disturb ----------

  /** A worker that found the pool no longer kept alive, or is about to. */
  predicate GoingHome(p: Phase) { p.KeepTest? || p.LoopTest? || p.Leaving? }

  /** Some worker has left since the round began with `base` live ones, or is on its way out,
      or the token that sends one on its way is still there. */
  ghost predicate Winding(s: State, base: int) {
    && FlagsOk(s) && s.ready && s.destroy.Polling? && s.alive <= base
    && (s.alive < base || s.bit || exists w :: 0 <= w < |s.workers| && GoingHome(s.workers[w]))
  }

  lemma WorkerKeepsWinding(s: State, base: int, w: nat, act: WorkerAct)
    requires Winding(s, base) && WorkerEnabled(s, w, act)
    ensures Winding(StepWorker(s, w, act), base)
  {
    var t := StepWorker(s, w, act);
    WorkerKeepsFlags(s, w, act);
    if s.alive == base && act != Leave {
      if act.SemTest? && s.bit {
        assert GoingHome(t.workers[w]);
      } else if !s.bit {
        var v :| 0 <= v < |s.workers| && GoingHome(s.workers[v]);
        assert GoingHome(t.workers[v]);
      }
    }
  }

  lemma OtherKeepsWinding(s: State, base: int, l: Label)
    requires Winding(s, base) && Enabled(s, l) && (l.Client? || l.Waiter?)
    ensures Winding(Step(s, l), base)
  {
    var t := Step(s, l);
    if s.alive == base && !s.bit {
      var v :| 0 <= v < |s.workers| && GoingHome(s.workers[v]);
      assert GoingHome(t.workers[v]);
    }
  }

  lemma {:induction false} RunKeepsWinding(s: State, base: int, ls: seq<Label>)
    requires Winding(s, base) && ValidRun(s, ls) && NoDestroyer(ls)
    ensures Winding(Exec(s, ls), base)
    decreases |ls|
  {
    if ls != [] {
      if ls[0].Worker? {
        WorkerKeepsWinding(s, base, ls[0].w, ls[0].does);
      } else {
        OtherKeepsWinding(s, base, ls[0]);
      }
      RunKeepsWinding(Step(s, ls[0]), base, ls[1..]);
    }
  }

  /** Any round that ends settled lets at least one live worker go, from whatever state the
      destroyer polls in and whatever the others do meanwhile. */
  lemma RoundReleasesSome(s: State, rest: seq<Label>)
    requires Inv(s) && RoundRun(s, rest) && Quiescent(AfterRound(s, rest))
    ensures var t := AfterRound(s, rest); Poised(t) && t.alive <= s.alive - 1
  {
    RoundUnfolds(s, rest);
    var p := PostKeepsInv(s);
    RunKeepsInv(p, rest);
    RunKeepsWinding(p, s.alive, rest);
    WindingEnds(AfterRound(s, rest), s.alive);
  }

  lemma WindingEnds(t: State, base: int)
    requires Inv(t) && Quiescent(t) && Winding(t, base) && base != 0
    ensures t.alive <= base - 1
  {
    SettledShape(t);
    TotalExtremes(AliveMeter, t.workers);
  }

  /** A sequence of rounds, each ending settled. */
  ghost predicate Rounds(s: State, rounds: seq<seq<Label>>)
    decreases |rounds|
  {
    rounds != [] ==>
      && RoundRun(s, rounds[0]) && Quiescent(AfterRound(s, rounds[0]))
      && Rounds(AfterRound(s, rounds[0]), rounds[1..])
  }

  ghost function AfterRounds(s: State, rounds: seq<seq<Label>>): State
    requires Rounds(s, rounds)
    decreases |rounds|
  {
    if rounds == [] then s else AfterRounds(AfterRound(s, rounds[0]), rounds[1..])
  }

  predicate OwnRounds(rounds: seq<seq<Label>>) { forall i :: 0 <= i < |rounds| ==> OwnRun(rounds[i]) }

  /** The number of live workers is a termination measure of the polling loops: it drops in
      every round, and by exactly one when the pool is left to itself. */
  lemma {:induction false} RoundsCountDown(s: State, rounds: seq<seq<Label>>)
    requires Inv(s) && s.destroy.Polling? && Rounds(s, rounds)
    ensures var t := AfterRounds(s, rounds);
      && Inv(t) && t.destroy.Polling? && 0 <= t.alive <= s.alive - |rounds|
      && (rounds != [] || Quiescent(s) ==> Poised(t))
      && (Poised(s) && OwnRounds(rounds) ==> t.alive == s.alive - |rounds|)
    decreases |rounds|
  {
    if rounds != [] {
      RoundReleasesSome(s, rounds[0]);
      if Poised(s) && OwnRun(rounds[0]) {
        RoundReleasesOne(s, rounds[0]);
      }
      RoundsCountDown(AfterRound(s, rounds[0]), rounds[1..]);
    }
  }

  /** Under every schedule in which the pool settles between two polls, the polling loops take
      at most as many rounds as there were live workers when the destroyer first polled; and
      when no live worker is left the next two steps of the destroyer free the pool. */
  lemma EveryShutDownEnds(n: nat, m: nat, before: seq<Label>, rounds: seq<seq<Label>>)
    requires ValidRun(Init(n, m), before)
    requires var s := Exec(Init(n, m), before); s.destroy.Polling? && Rounds(s, rounds)
    ensures var s := Exec(Init(n, m), before); var t := AfterRounds(s, rounds);
      && |rounds| <= s.alive <= n && (|rounds| == s.alive ==> t.alive == 0)
      && ((rounds != [] || Quiescent(s)) && t.alive == 0 ==> NextStepsFree(t))
  {
    InitInv(n, m);
    RunKeepsInv(Init(n, m), before);
    RunKeepsSize(Init(n, m), before);
    var s := Exec(Init(n, m), before);
    TotalExtremes(AliveMeter, s.workers);
    RoundsCountDown(s, rounds);
    var t := AfterRounds(s, rounds);
    if (rounds != [] || Quiescent(s)) && t.alive == 0 {
      PoisedCanFree(t);
    }
  }

  ghost predicate NextStepsFree(t: State) {
    && Enabled(t, Destroyer(DestroyPoll))
    && var u := Step(t, Destroyer(DestroyPoll));
       Enabled(u, Destroyer(DestroyClear)) && Step(u, Destroyer(DestroyClear)).destroy.Freed?
  }

  lemma PoisedCanFree(t: State)
    requires Poised(t) && t.alive == 0
    ensures NextStepsFree(t)
  {
    SettledShape(t);
  }

  lemma {:induction false} RoundsComplete(s: State) returns (ls: seq<Label>)
    requires Poised(s)
    ensures ValidRun(s, ls) && Exec(s, ls).destroy.Freed?
    decreases s.alive
  {
    if s.alive == 0 {
      PoisedCanFree(s);
      ls := Extend(s, [], Destroyer(DestroyPoll));
      ls := Extend(s, ls, Destroyer(DestroyClear));
    } else {
      var start := Extend(s, [], Destroyer(DestroyPoll));
      start := Extend(s, start, Destroyer(DestroyPost));
      RunKeepsInv(s, start);
      var own := SomeOwnRunSettles(Exec(s, start));
      RunsCompose(s, start, own);
      assert start == [Destroyer(DestroyPoll), Destroyer(DestroyPost)];
      assert NoDestroyer(own);
      RoundReleasesOne(s, own);
      var rest := RoundsComplete(AfterRound(s, own));
      RunsCompose(s, start + own, rest);
      ls := start + own + rest;
    }
  }

  /** Whatever happened before, a shut-down that has begun can be driven to its end. */
  lemma ShutDownCompletes(n: nat, m: nat, before: seq<Label>) returns (ls: seq<Label>)
    requires ValidRun(Init(n, m), before) && !Exec(Init(n, m), before).destroy.NotCalled?
    ensures ValidRun(Exec(Init(n, m), before), ls)
    ensures Exec(Exec(Init(n, m), before), ls).destroy.Freed?
  {
    InitInv(n, m);
    RunKeepsInv(Init(n, m), before);
    var s := Exec(Init(n, m), before);
    if s.destroy.Freed? {
      return [];
    }
    var start := [];
    if s.destroy.MustPost? {
      start := Extend(s, [], Destroyer(DestroyPost));
    }
    RunKeepsInv(s, start);
    var own := SomeOwnRunSettles(Exec(s, start));
    RunKeepsInv(Exec(s, start), own);
    OwnRunsKeepAlive(Exec(s, start), own);
    RunsCompose(s, start, own);
    var t := Exec(s, start + own);
    var rest := FinishFrom(t);
    RunsCompose(s, start + own, rest);
    ls := start + own + rest;
  }

  lemma FinishFrom(t: State) returns (ls: seq<Label>)
    requires Inv(t) && Quiescent(t) && (t.destroy.Polling? || t.destroy.Clearing?)
    ensures ValidRun(t, ls) && Exec(t, ls).destroy.Freed?
  {
    if t.destroy.Clearing? {
      SettledShape(t);
      ls := Extend(t, [], Destroyer(DestroyClear));
    } else {
      ls := RoundsComplete(t);
    }
  }
}
