/** The feedback loop as a whole: recorded transactions, samples of them, and the admission
    delay that the controller derives from the samples. */

module Feedback {
  import opened EventLog
  import opened Stats
  import opened Controller

  /** What the controller reads of a period in which these transactions were recorded. */
  function LoadOf(period: seq<Event>): Load {
    Load(Sum(Duration, period, 0, USER_TYPES), Sum(Count, period, 0, USER_TYPES))
  }

  /** Every user transaction stays within the bound. */
  predicate WithinBound(log: seq<Event>, bound: int) {
    forall i :: 0 <= i < |log| && log[i].kind < USER_TYPES ==> log[i].duration <= bound
  }

  lemma {:induction false} DurationsAddUp(log: seq<Event>, bound: int)
    requires WithinBound(log, bound)
    ensures var load := LoadOf(log); load.count >= 0 && load.duration <= bound * load.count
    decreases |log|
  {
    if log != [] {
      var before := log[..|log| - 1];
      DurationsAddUp(before, bound);
      var n := LoadOf(before).count;
      assert bound * (n + 1) == bound * n + bound;
    }
  }

  lemma AverageAtMost(duration: int, count: int, bound: int)
    requires count > 0 && duration <= bound * count
    ensures duration as real / count as real <= bound as real
  {
    var a, c, b := duration as real, count as real, bound as real;
    var q := a / c;
    assert q * c == a;
    assert a <= b * c;
    if q > b {
      assert (q - b) * c > 0.0;
    }
  }

  /** A period whose user transactions all stay within the bound is no overload. */
  lemma QuietPeriodIsCalm(period: seq<Event>, bound: int)
    requires WithinBound(period, bound)
    ensures DegreeOf(LoadOf(period), bound as real) == 0.0
  {
    DurationsAddUp(period, bound);
    var load := LoadOf(period);
    if load.count > 0 {
      AverageAtMost(load.duration, load.count, bound);
    }
  }

  // ---------- the loads of a history ----------

  /** The transactions recorded between sample `k` and the one before it. */
  ghost function Period(h: History, k: nat): seq<Event>
    requires HistoryOk(h) && k <= |h.samples|
  {
    BeforeGrows(h, k - 1, k);
    Before(h, k)[|Before(h, k - 1)|..]
  }

  /** The periods that end with the samples `lo + 1` up to `hi`. */
  ghost function Periods(h: History, lo: nat, hi: nat): (r: seq<seq<Event>>)
    requires HistoryOk(h) && lo <= hi <= |h.samples|
    ensures |r| == hi - lo
    decreases hi
  {
    if lo == hi then [] else Periods(h, lo, hi - 1) + [Period(h, hi)]
  }

  function LoadsOf(periods: seq<seq<Event>>): (r: seq<Load>)
    ensures |r| == |periods|
    ensures forall i :: 0 <= i < |r| ==> r[i] == LoadOf(periods[i])
  {
    seq(|periods|, i requires 0 <= i < |periods| => LoadOf(periods[i]))
  }

  lemma LoadsConcat(a: seq<seq<Event>>, b: seq<seq<Event>>)
    ensures LoadsOf(a + b) == LoadsOf(a) + LoadsOf(b)
  {
  }

  lemma Regroup(a: seq<seq<Event>>, b: seq<seq<Event>>, c: seq<seq<Event>>)
    ensures (a + b) + c == a + (b + c)
  {
  }

  lemma {:induction false} PeriodsSplit(h: History, mid: nat, hi: nat)
    requires HistoryOk(h) && mid <= hi <= |h.samples|
    ensures Periods(h, 0, hi) == Periods(h, 0, mid) + Periods(h, mid, hi)
    decreases hi
  {
    if mid < hi {
      PeriodsSplit(h, mid, hi - 1);
      var last := [Period(h, hi)];
      assert Periods(h, 0, hi) == Periods(h, 0, hi - 1) + last;
      assert Periods(h, mid, hi) == Periods(h, mid, hi - 1) + last;
      Regroup(Periods(h, 0, mid), Periods(h, mid, hi - 1), last);
    }
  }

  lemma {:induction false} PeriodsKept(h: History, log: seq<Event>, hi: nat)
    requires HistoryOk(h) && h.log <= log && FromThreads(log, h.threads) && hi <= |h.samples|
    ensures HistoryOk(Sampled(h, log)) && Periods(Sampled(h, log), 0, hi) == Periods(h, 0, hi)
    decreases hi
  {
    BeforeKept(h, log, hi);
    if hi > 0 {
      BeforeKept(h, log, hi - 1);
      PeriodsKept(h, log, hi - 1);
      assert Period(Sampled(h, log), hi) == Period(h, hi);
    }
  }

  lemma PeriodsGrow(h: History, log: seq<Event>)
    requires HistoryOk(h) && h.log <= log && FromThreads(log, h.threads)
    ensures var t := Sampled(h, log); var n := |h.samples|;
      && HistoryOk(t) && |t.samples| == n + 1
      && Periods(t, 0, n + 1) == Periods(h, 0, n) + [Recent(t)]
  {
    var t, n := Sampled(h, log), |h.samples|;
    PeriodsKept(h, log, n);
    assert Period(t, n + 1) == Recent(t);
  }

  const START := Control(0.0, 0)

  /** What the log says the controller must have computed. */
  ghost function ControlOf(h: History, upTo: nat, bound: int, alpha: real): Control
    requires HistoryOk(h) && upTo <= |h.samples|
  {
    Run(START, LoadsOf(Periods(h, 0, upTo)), bound as real, alpha)
  }

  lemma RunGrows(c: Control, loads: seq<Load>, load: Load, bound: real, alpha: real)
    ensures Run(c, loads + [load], bound, alpha) == Monitor(Run(c, loads, bound, alpha), load, bound, alpha)
  {
    var one := [load];
    assert one[1..] == [];
    assert Run(Monitor(Run(c, loads, bound, alpha), load, bound, alpha), one[1..], bound, alpha)
        == Monitor(Run(c, loads, bound, alpha), load, bound, alpha);
    RunsCompose(c, loads, one, bound, alpha);
  }

  lemma ControlGrows(h: History, log: seq<Event>, bound: int, alpha: real)
    requires HistoryOk(h) && h.log <= log && FromThreads(log, h.threads)
    ensures var t := Sampled(h, log); var n := |h.samples|;
      && HistoryOk(t) && |t.samples| == n + 1
      && ControlOf(t, n + 1, bound, alpha)
         == Monitor(ControlOf(h, n, bound, alpha), LoadOf(Recent(t)), bound as real, alpha)
  {
    PeriodsGrow(h, log);
    var before, last := Periods(h, 0, |h.samples|), Recent(Sampled(h, log));
    var load := LoadOf(last);
    assert LoadsOf(before + [last]) == LoadsOf(before) + [load];
    RunGrows(START, LoadsOf(before), load, bound as real, alpha);
  }

  /** The context holds what the log says. */
  ghost predicate Tracks(context: Context, server: ServerStats)
    reads context, server, server.ring
    requires server.Valid()
  {
    Control(context.smoothed, context.sleep)
      == ControlOf(server.history, |server.history.samples|, context.desiredDelay, context.alpha)
  }

  /** One sampling period of the processing thread: sample the counters, run the controller. */
  method TakeSample(server: ServerStats, threads: ThreadStats, context: Context)
    requires server.Valid() && threads.Valid() && threads.Threads() == server.history.threads
    requires server.history.log <= threads.log && server.ring as object != threads.cells
    requires Tracks(context, server)
    modifies server, server.ring, context
    ensures server.Valid() && server.history == Sampled(old(server.history), threads.log)
    ensures Tracks(context, server)
  {
    ghost var h := server.history;
    ControlGrows(h, threads.log, context.desiredDelay, context.alpha);
    server.Aggregate(threads);
    var count, duration := server.LastPeriod();
    context.PerformanceMonitor(Load(duration, count));
  }

  // ---------- recovery ----------

  /** The transactions recorded after sample `from`. */
  ghost function Since(h: History, from: nat): seq<Event>
    requires HistoryOk(h) && from <= |h.samples|
  {
    BeforeGrows(h, from, |h.samples|);
    Before(h, |h.samples|)[|Before(h, from)|..]
  }

  lemma SliceWithinBound(log: seq<Event>, a: nat, b: nat, bound: int)
    requires a <= b <= |log| && WithinBound(log, bound)
    ensures WithinBound(log[a..b], bound)
  {
  }

  lemma NestedSlice(a: seq<Event>, b: seq<Event>, c: seq<Event>, d: seq<Event>)
    requires a <= b <= c <= d
    ensures c[|b|..] == d[|a|..][|b| - |a|..|c| - |a|]
  {
  }

  /** A later period is a slice of what was recorded since. */
  lemma PeriodIsSlice(h: History, from: nat, k: nat) returns (a: nat, b: nat)
    requires HistoryOk(h) && from < k <= |h.samples|
    ensures a <= b <= |Since(h, from)| && Period(h, k) == Since(h, from)[a..b]
  {
    BeforeGrows(h, from, k - 1);
    BeforeGrows(h, k - 1, k);
    BeforeGrows(h, k, |h.samples|);
    NestedSlice(Before(h, from), Before(h, k - 1), Before(h, k), Before(h, |h.samples|));
    var start := |Before(h, from)|;
    a, b := |Before(h, k - 1)| - start, |Before(h, k)| - start;
  }

  lemma PeriodWithinBound(h: History, from: nat, bound: int, k: nat)
    requires HistoryOk(h) && from < k <= |h.samples| && WithinBound(Since(h, from), bound)
    ensures WithinBound(Period(h, k), bound)
  {
    var a, b := PeriodIsSlice(h, from, k);
    SliceWithinBound(Since(h, from), a, b, bound);
  }

  predicate AllWithinBound(periods: seq<seq<Event>>, bound: int) {
    forall p :: p in periods ==> WithinBound(p, bound)
  }

  /** What holds of every period in a range holds of the list of them. */
  lemma {:induction false} PeriodsAmong(h: History, lo: nat, hi: nat, good: iset<seq<Event>>)
    requires HistoryOk(h) && lo <= hi <= |h.samples|
    requires forall k :: lo < k <= hi ==> Period(h, k) in good
    ensures forall p :: p in Periods(h, lo, hi) ==> p in good
    decreases hi
  {
    if lo < hi {
      PeriodsAmong(h, lo, hi - 1, good);
    }
  }

  lemma QuietPeriodsAreCalm(periods: seq<seq<Event>>, bound: int)
    requires AllWithinBound(periods, bound)
    ensures Calm(LoadsOf(periods), bound as real)
  {
    var loads := LoadsOf(periods);
    forall i | 0 <= i < |loads| ensures DegreeOf(loads[i], bound as real) == 0.0 {
      QuietPeriodIsCalm(periods[i], bound);
    }
  }

  lemma {:induction false} ControlStaysNonNegative(c: Control, loads: seq<Load>, bound: real, alpha: real)
    requires 0.0 < alpha <= 1.0 && c.smoothed >= 0.0 && c.sleep >= 0
    ensures Run(c, loads, bound, alpha).smoothed >= 0.0 && Run(c, loads, bound, alpha).sleep >= 0
    decreases |loads|
  {
    if loads != [] {
      var degree := DegreeOf(loads[0], bound);
      DegreeIsExcess(AverageServiceDelay(loads[0].duration, loads[0].count), bound);
      Between(degree, c.smoothed, alpha, if degree > c.smoothed then degree else c.smoothed);
      ControlStaysNonNegative(Monitor(c, loads[0], bound, alpha), loads[1..], bound, alpha);
    }
  }

  /** The controller at the last sample is where its state at sample `from` leads. */
  lemma ControlSplits(h: History, from: nat, bound: int, alpha: real) returns (c: Control)
    requires HistoryOk(h) && from <= |h.samples| && 0.0 < alpha <= 1.0
    ensures c == ControlOf(h, from, bound, alpha) && c.smoothed >= 0.0 && c.sleep >= 0
    ensures ControlOf(h, |h.samples|, bound, alpha)
         == Run(c, LoadsOf(Periods(h, from, |h.samples|)), bound as real, alpha)
  {
    var n, b := |h.samples|, bound as real;
    var early, late := LoadsOf(Periods(h, 0, from)), LoadsOf(Periods(h, from, n));
    c := ControlOf(h, from, bound, alpha);
    ControlStaysNonNegative(START, early, b, alpha);
    PeriodsSplit(h, from, n);
    LoadsConcat(Periods(h, 0, from), Periods(h, from, n));
    RunsCompose(START, early, late, b, alpha);
  }

  /** The loop recovers: if all user transactions recorded after some sample stay within the
      desired delay, then a number of samples later that can be computed from the controller's
      state at that sample the admission delay is at most one millisecond. */
  lemma DelayRecoversFromLog(h: History, from: nat, bound: int, alpha: real)
    requires HistoryOk(h) && from <= |h.samples| && WithinBound(Since(h, from), bound)
    requires 0.0 < alpha <= 1.0
    ensures var c := ControlOf(h, from, bound, alpha);
      && c.smoothed >= 0.0 && c.sleep >= 0
      && (|h.samples| - from >= c.sleep + 2 * SettlingTime(c.smoothed, alpha) ==>
            ControlOf(h, |h.samples|, bound, alpha).sleep <= 1)
  {
    var n := |h.samples|;
    var c := ControlSplits(h, from, bound, alpha);
    forall k | from < k <= n ensures WithinBound(Period(h, k), bound) {
      PeriodWithinBound(h, from, bound, k);
    }
    PeriodsAmong(h, from, n, iset p: seq<Event> | WithinBound(p, bound));
    QuietPeriodsAreCalm(Periods(h, from, n), bound);
    DelayRecovers(c, LoadsOf(Periods(h, from, n)), bound as real, alpha);
  }

  // ---------- build-up ----------

  /** In every period that ends with one of the samples `lo + 1` up to `hi` there were user
      transactions, and on average they took more than `1 + d` times the bound. */
  ghost predicate AllExceed(h: History, lo: nat, hi: nat, bound: int, d: real)
    requires HistoryOk(h) && lo <= hi <= |h.samples|
  {
    forall k :: lo < k <= hi ==> Exceeds(LoadOf(Period(h, k)), bound as real, d)
  }

  predicate EachExceeds(periods: seq<seq<Event>>, bound: int, d: real) {
    forall p :: p in periods ==> Exceeds(LoadOf(p), bound as real, d)
  }

  lemma ExceedingIsOverload(periods: seq<seq<Event>>, bound: int, d: real)
    requires EachExceeds(periods, bound, d)
    ensures Overloaded(LoadsOf(periods), bound as real, d)
  {
    forall i | 0 <= i < |periods| ensures Exceeds(LoadsOf(periods)[i], bound as real, d) {
      assert periods[i] in periods;
    }
  }

  /** The loop reacts: if from some sample on every period saw user transactions that on average
      took more than `1 + d` times the desired delay, then after a number of samples that can be
      computed the delay grows by at least one millisecond per sample. */
  lemma DelayBuildsUpFromLog(h: History, from: nat, bound: int, alpha: real, d: real)
    requires HistoryOk(h) && from <= |h.samples| && bound > 0 && d > 0.001 && 0.0 < alpha <= 1.0
    requires AllExceed(h, from, |h.samples|, bound, d)
    ensures var t := ControlOf(h, |h.samples|, bound, alpha);
      var late := |h.samples| - from - ReactionTime(d, alpha);
      late >= 0 ==> t.smoothed > 0.001 && t.sleep >= late
  {
    var n := |h.samples|;
    PeriodsAmong(h, from, n, iset p: seq<Event> | Exceeds(LoadOf(p), bound as real, d));
    var c := ControlSplits(h, from, bound, alpha);
    ExceedingIsOverload(Periods(h, from, n), bound, d);
    DelayBuildsUp(c, LoadsOf(Periods(h, from, n)), bound as real, alpha, d);
  }
}
