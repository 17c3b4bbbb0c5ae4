/** The statistics objects: per-thread counters, and a ring of samples taken from them. */

module Stats {
  import opened EventLog

  /** The counters of all threads. `log` is the history of recorded transactions. */
  class ThreadStats {
    const cells: array2<Tally>
    ghost var log: seq<Event>

    function Threads(): nat { cells.Length0 }

    ghost predicate Valid()
      reads this, cells
    {
      && cells.Length1 == TYPES
      && FromThreads(log, Threads()) && TimelyOk(log)
      && forall j, i :: 0 <= j < cells.Length0 && 0 <= i < TYPES ==> cells[j, i] == TallyOf(log, j, i)
    }

    constructor (threads: nat)
      ensures Valid() && fresh(cells) && Threads() == threads && log == []
    {
      cells := new Tally[threads, TYPES]((_, _) => ZERO);
      log := [];
    }

    /** Records one finished transaction. */
    method Update(start: Time, end: Time, desiredDelay: int, kind: nat, rc: int, thread: nat)
      requires Valid() && kind < TYPES && thread < Threads()
      modifies this, cells
      ensures Valid() && log == old(log) + [Recorded(start, end, desiredDelay, kind, rc, thread)]
      ensures forall j, i :: 0 <= j < cells.Length0 && 0 <= i < TYPES && !(j == thread && i == kind) ==>
                cells[j, i] == old(cells[j, i])
      ensures CountsOne(old(cells[thread, kind]), cells[thread, kind], start, end, desiredDelay, rc)
    {
      ghost var was := cells[thread, kind];
      var duration := DiffTime(start, end);
      var t := cells[thread, kind];
      if duration > t.maxTime {
        t := t.(maxTime := duration);
      }
      t := t.(duration := t.duration + duration);
      if rc == SUCCESS {
        if duration < desiredDelay {
          t := t.(timely := t.timely + 1);
        }
        t := t.(success := t.success + 1);
      } else {
        t := t.(failed := t.failed + 1);
      }
      ghost var e := Recorded(start, end, desiredDelay, kind, rc, thread);
      assert t == Add(was, e);
      forall j, i | 0 <= j < cells.Length0 && 0 <= i < TYPES
        ensures TallyOf(log + [e], j, i) == if j == thread && i == kind then t else cells[j, i]
      {
        TallyGrows(log, e, j, i);
      }
      cells[thread, kind] := t;
      log := log + [e];
      AddFromStamps(was, start, end, desiredDelay, kind, rc, thread);
    }

    /** The loops of the sampler: one pass over all threads that adds up every total. */
    method Collect(deadline: int) returns (all: Totals)
      requires Valid()
      ensures all == TotalsOf(log, Threads(), deadline)
    {
      all := Totals(0, 0, 0, 0, 0, 0, 0);
      for j := 0 to cells.Length0
        invariant all == TotalsOf(log, j, deadline)
      {
        ghost var before := all;
        for i := 0 to USER_TYPES
          invariant all == AddRow(before, log, j, i, deadline)
        {
          var t := cells[j, i];
          all := all.(timely := all.timely + t.timely,
                      count := all.count + t.success + t.failed,
                      duration := all.duration + t.duration);
          if t.duration > deadline {
            all := all.(delay := all.delay + (t.duration - deadline));
          } else {
            all := all.(slack := all.slack + (deadline - t.duration));
          }
        }
        var r := cells[j, USER_TYPES];
        RefreshRow(log, j);
        all := all.(refreshCount := all.refreshCount + r.success + r.failed,
                    refreshDuration := all.refreshDuration + r.duration);
      }
    }
  }

  /** Cumulative totals: users first, then refresh transactions. */
  datatype Totals = Totals(count: int, timely: int, duration: int, delay: int, slack: int,
                           refreshCount: int, refreshDuration: int)

  ghost function TotalsOf(log: seq<Event>, threads: nat, deadline: int): Totals {
    Totals(Grid(Count, log, threads, 0, USER_TYPES), Grid(Timely, log, threads, 0, USER_TYPES),
           Grid(Duration, log, threads, 0, USER_TYPES), Grid(Delay(deadline), log, threads, 0, USER_TYPES),
           Grid(Slack(deadline), log, threads, 0, USER_TYPES),
           Grid(Count, log, threads, USER_TYPES, TYPES), Grid(Duration, log, threads, USER_TYPES, TYPES))
  }

  lemma RefreshRow(log: seq<Event>, thread: nat)
    ensures Row(Count, log, thread, USER_TYPES, TYPES) == Get(Count, TallyOf(log, thread, USER_TYPES))
    ensures Row(Duration, log, thread, USER_TYPES, TYPES) == Get(Duration, TallyOf(log, thread, USER_TYPES))
  {
    assert Row(Count, log, thread, USER_TYPES, USER_TYPES) == 0;
    assert Row(Duration, log, thread, USER_TYPES, USER_TYPES) == 0;
  }

  ghost function AddRow(all: Totals, log: seq<Event>, thread: nat, upTo: nat, deadline: int): Totals {
    all.(count := all.count + Row(Count, log, thread, 0, upTo),
         timely := all.timely + Row(Timely, log, thread, 0, upTo),
         duration := all.duration + Row(Duration, log, thread, 0, upTo),
         delay := all.delay + Row(Delay(deadline), log, thread, 0, upTo),
         slack := all.slack + Row(Slack(deadline), log, thread, 0, upTo))
  }

  // ---------- the ring of samples ----------

  /** The slot of sample `k`; samples before the first are thought of as taken on an empty log. */
  function SlotOf(k: int, slots: nat): (s: nat)
    requires 0 < slots
    ensures s < slots
  {
    k % slots
  }

  lemma SlotIs(k: int, slots: nat, q: int, r: nat)
    requires 0 < slots && k == q * slots + r && r < slots
    ensures SlotOf(k, slots) == r
  {
    var q', r' := k / slots, k % slots;
    assert k == q' * slots + r';
    assert (q - q') * slots == r' - r;
    if q != q' {
      SmallMultiple(q - q', slots);
    }
  }

  lemma SmallMultiple(d: int, n: nat)
    requires d != 0
    ensures d * n >= n || d * n + n <= 0
  {
  }

  lemma SlotMoves(k: int, slots: nat)
    requires 0 < slots
    ensures SlotOf(k + 1, slots) == (SlotOf(k, slots) + 1) % slots
    ensures SlotOf(k - slots, slots) == SlotOf(k, slots)
    ensures (SlotOf(k + 1, slots) + slots - 1) % slots == SlotOf(k, slots)
  {
    var q, r := k / slots, k % slots;
    assert k == q * slots + r;
    assert (q - 1) * slots == q * slots - slots && (q + 1) * slots == q * slots + slots;
    SlotIs(k - slots, slots, q - 1, r);
    if r + 1 < slots {
      SlotIs(k + 1, slots, q, r + 1);
      SlotIs(r + 1, slots, 0, r + 1);
      SlotIs(r + slots, slots, 1, r);
    } else {
      SlotIs(k + 1, slots, q + 1, 0);
      SlotIs(r + 1, slots, 1, 0);
      SlotIs(slots - 1, slots, 0, slots - 1);
    }
  }

  /** Samples of one window sit in different slots. */
  lemma SlotsDiffer(i: int, k: int, slots: nat)
    requires 0 < slots && i < k < i + slots
    ensures SlotOf(i, slots) != SlotOf(k, slots)
  {
    var q, r := i / slots, i % slots;
    assert i == q * slots + r;
    assert (q + 1) * slots == q * slots + slots;
    if r + (k - i) < slots {
      SlotIs(k, slots, q, r + (k - i));
    } else {
      SlotIs(k, slots, q + 1, r + (k - i) - slots);
    }
  }

  /** One slot of the ring. */
  datatype Sample = Sample(totals: Totals, tpm: int, ttpm: int, periodCount: int, periodDuration: int)

  const NO_TOTALS := Totals(0, 0, 0, 0, 0, 0, 0)

  /** The totals collected for sample `k`, counting from 1; nothing before the first. */
  function Nth(all: seq<Totals>, k: int): Totals
    requires k <= |all|
  {
    if k <= 0 then NO_TOTALS else all[k - 1]
  }

  /** What the slot of sample `k` must hold in a ring of `slots` slots. */
  function SampleOf(all: seq<Totals>, k: int, slots: nat): Sample
    requires k <= |all|
  {
    var now, past, previous := Nth(all, k), Nth(all, k - slots), Nth(all, k - 1);
    Sample(now, now.count - past.count, now.timely - past.timely,
           now.count - previous.count, now.duration - previous.duration)
  }

  /** The ring holds the samples of the last window, each in its slot. */
  ghost predicate RingHolds(ring: seq<Sample>, all: seq<Totals>) {
    && |ring| > 1
    && forall k :: |all| - |ring| < k <= |all| ==> ring[SlotOf(k, |ring|)] == SampleOf(all, k, |ring|)
  }

  lemma RingMoves(ring: seq<Sample>, all: seq<Totals>, next: Totals)
    requires RingHolds(ring, all)
    ensures var n, slots := |all|, |ring|; var s := SlotOf(n + 1, slots);
      && s == (SlotOf(n, slots) + 1) % slots
      && ring[s].totals == Nth(all, n + 1 - slots)
      && ring[(s + slots - 1) % slots].totals == Nth(all, n)
      && RingHolds(ring[s := SampleOf(all + [next], n + 1, slots)], all + [next])
  {
    var n, slots := |all|, |ring|;
    SlotMoves(n, slots);
    SlotMoves(n + 1, slots);
    forall k | n + 1 - slots < k <= n
      ensures SlotOf(k, slots) != SlotOf(n + 1, slots)
      ensures SampleOf(all + [next], k, slots) == SampleOf(all, k, slots)
    {
      SlotsDiffer(k, n + 1, slots);
    }
  }

  // ---------- the ring against the log ----------

  /** What was recorded, and how much of it each sample saw. */
  datatype History = History(log: seq<Event>, samples: seq<nat>, threads: nat)

  ghost predicate HistoryOk(h: History) {
    && FromThreads(h.log, h.threads)
    && (forall k :: 0 <= k < |h.samples| ==> h.samples[k] <= |h.log|)
    && (forall i, k :: 0 <= i < k < |h.samples| ==> h.samples[i] <= h.samples[k])
  }

  /** The events recorded before sample `k`. */
  ghost function Before(h: History, k: int): seq<Event>
    requires HistoryOk(h)
  {
    if k <= 0 || k > |h.samples| then [] else h.log[..h.samples[k - 1]]
  }

  /** The cumulative total of a user quantity at sample `k`, 0 before the first sample. */
  ghost function Cum(q: Quantity, h: History, k: int): int
    requires HistoryOk(h)
  {
    Sum(q, Before(h, k), 0, USER_TYPES)
  }

  /** Each sample collected what the log says at its time. */
  ghost predicate Collected(all: seq<Totals>, h: History, deadline: int) {
    && HistoryOk(h) && |all| == |h.samples|
    && forall k :: 0 < k <= |all| ==> all[k - 1] == TotalsOf(Before(h, k), h.threads, deadline)
  }

  function Sampled(h: History, log: seq<Event>): History {
    History(log, h.samples + [|log|], h.threads)
  }

  lemma BeforeKept(h: History, log: seq<Event>, k: int)
    requires HistoryOk(h) && h.log <= log && FromThreads(log, h.threads) && k <= |h.samples|
    ensures HistoryOk(Sampled(h, log)) && Before(Sampled(h, log), k) == Before(h, k)
  {
    if k > 0 {
      assert log[..h.samples[k - 1]] == h.log[..h.samples[k - 1]];
    }
  }

  lemma CollectedGrows(all: seq<Totals>, h: History, log: seq<Event>, deadline: int)
    requires Collected(all, h, deadline) && h.log <= log && FromThreads(log, h.threads)
    ensures Collected(all + [TotalsOf(log, h.threads, deadline)], Sampled(h, log), deadline)
  {
    var t := Sampled(h, log);
    BeforeKept(h, log, 0);
    assert Before(t, |all| + 1) == log by { assert log[..|log|] == log; }
    forall k | 0 < k <= |all| ensures Before(t, k) == Before(h, k) {
      BeforeKept(h, log, k);
    }
  }

  /** The collected totals are the cumulative totals of the log. */
  lemma TotalsMatchLog(all: seq<Totals>, h: History, deadline: int, k: int)
    requires Collected(all, h, deadline) && k <= |all|
    ensures Nth(all, k).count == Cum(Count, h, k)
    ensures Nth(all, k).timely == Cum(Timely, h, k)
    ensures Nth(all, k).duration == Cum(Duration, h, k)
    ensures Nth(all, k).refreshCount == Sum(Count, Before(h, k), USER_TYPES, TYPES)
    ensures Nth(all, k).refreshDuration == Sum(Duration, Before(h, k), USER_TYPES, TYPES)
  {
    if k > 0 {
      GridIsSum(Count, Before(h, k), h.threads, USER_TYPES, TYPES);
      GridIsSum(Duration, Before(h, k), h.threads, USER_TYPES, TYPES);
      GridIsSum(Count, Before(h, k), h.threads, 0, USER_TYPES);
      GridIsSum(Timely, Before(h, k), h.threads, 0, USER_TYPES);
      GridIsSum(Duration, Before(h, k), h.threads, 0, USER_TYPES);
    }
  }

  /** What the last sample of the ring means in terms of the log. */
  lemma WindowMatchesLog(all: seq<Totals>, h: History, deadline: int, slots: nat)
    requires Collected(all, h, deadline)
    ensures var n := |h.samples|; var s := SampleOf(all, n, slots);
      && s.tpm == Cum(Count, h, n) - Cum(Count, h, n - slots)
      && s.ttpm == Cum(Timely, h, n) - Cum(Timely, h, n - slots)
  {
    TotalsMatchLog(all, h, deadline, |h.samples|);
    TotalsMatchLog(all, h, deadline, |h.samples| - slots);
  }

  lemma PeriodMatchesLog(all: seq<Totals>, h: History, deadline: int, slots: nat)
    requires Collected(all, h, deadline)
    ensures var s := SampleOf(all, |h.samples|, slots);
      && s.periodCount == Sum(Count, Recent(h), 0, USER_TYPES)
      && s.periodDuration == Sum(Duration, Recent(h), 0, USER_TYPES)
  {
    TotalsMatchLog(all, h, deadline, |h.samples|);
    TotalsMatchLog(all, h, deadline, |h.samples| - 1);
    PeriodIsRecent(Count, h);
    PeriodIsRecent(Duration, h);
  }

  class ServerStats {
    const deadline: int
    const ring: array<Sample>
    var sampleNum: nat
    ghost var collected: seq<Totals>
    ghost var history: History

    ghost predicate Valid()
      reads this, ring
    {
      && RingHolds(ring[..], collected)
      && sampleNum == SlotOf(|collected|, ring.Length)
      && Collected(collected, history, deadline)
    }

    constructor (deadline: int, slots: nat, ghost threads: nat)
      requires slots > 1
      ensures Valid() && fresh(ring) && ring.Length == slots && this.deadline == deadline
      ensures history == History([], [], threads)
    {
      this.deadline := deadline;
      ring := new Sample[slots](_ => Sample(NO_TOTALS, 0, 0, 0, 0));
      sampleNum := 0;
      collected, history := [], History([], [], threads);
      new;
      SlotIs(0, slots, 0, 0);
    }

    /** Takes a sample of the thread counters. */
    method Aggregate(stats: ThreadStats)
      requires Valid() && stats.Valid() && stats.Threads() == history.threads
      requires history.log <= stats.log && ring as object != stats.cells
      modifies this, ring
      ensures Valid() && history == Sampled(old(history), stats.log)
    {
      var all := stats.Collect(deadline);
      ghost var was := ring[..];
      RingMoves(was, collected, all);
      CollectedGrows(collected, history, stats.log, deadline);
      sampleNum := (sampleNum + 1) % ring.Length;
      var past := ring[sampleNum].totals;
      var previous := ring[(sampleNum + ring.Length - 1) % ring.Length].totals;
      ring[sampleNum] := Sample(all, all.count - past.count, all.timely - past.timely,
                                all.count - previous.count, all.duration - previous.duration);
      assert ring[..] == was[sampleNum := SampleOf(collected + [all], |collected| + 1, ring.Length)];
      collected := collected + [all];
      history := Sampled(history, stats.log);
    }

    lemma LastSample()
      requires Valid()
      ensures ring[sampleNum] == SampleOf(collected, |collected|, ring.Length)
    {
      assert ring[..][SlotOf(|collected|, ring.Length)] == SampleOf(collected, |collected|, ring.Length);
    }

    /** Transactions per minute at the last sample: those of the last `slots` periods. */
    method LastTpm() returns (tpm: int)
      requires Valid()
      ensures var n := |history.samples|;
              tpm == Cum(Count, history, n) - Cum(Count, history, n - ring.Length)
    {
      tpm := ring[sampleNum].tpm;
      LastSample();
      WindowMatchesLog(collected, history, deadline, ring.Length);
    }

    /** Timely transactions per minute; never more than all transactions of that window. */
    method LastTtpm() returns (ttpm: int)
      requires Valid()
      ensures var n := |history.samples|;
        && ttpm == Cum(Timely, history, n) - Cum(Timely, history, n - ring.Length)
        && 0 <= ttpm <= Cum(Count, history, n) - Cum(Count, history, n - ring.Length)
    {
      ttpm := ring[sampleNum].ttpm;
      LastSample();
      WindowMatchesLog(collected, history, deadline, ring.Length);
      WindowBounds(history, |history.samples| - ring.Length, |history.samples|);
    }

    /** Number and total duration of the user transactions of the last period. */
    method LastPeriod() returns (count: int, duration: int)
      requires Valid()
      ensures var recent := Recent(history);
        count == Sum(Count, recent, 0, USER_TYPES) && duration == Sum(Duration, recent, 0, USER_TYPES)
    {
      count, duration := ring[sampleNum].periodCount, ring[sampleNum].periodDuration;
      LastSample();
      PeriodMatchesLog(collected, history, deadline, ring.Length);
    }

    /** Number and total duration of all refresh transactions recorded before the last sample. */
    method LastRefreshes() returns (count: int, duration: int)
      requires Valid()
      ensures var log := Before(history, |history.samples|);
        && count == Sum(Count, log, USER_TYPES, TYPES) && duration == Sum(Duration, log, USER_TYPES, TYPES)
    {
      count, duration := ring[sampleNum].totals.refreshCount, ring[sampleNum].totals.refreshDuration;
      LastSample();
      TotalsMatchLog(collected, history, deadline, |collected|);
    }

    /** Total delay and total slack at the last sample: each is the sum over the threads and
        user types, and they balance against the total duration. */
    method LastDelayAndSlack() returns (delay: int, slack: int)
      requires Valid() && history.samples != []
      ensures var log := Before(history, |history.samples|);
        && delay == Grid(Delay(deadline), log, history.threads, 0, USER_TYPES) >= 0
        && slack == Grid(Slack(deadline), log, history.threads, 0, USER_TYPES) >= 0
        && delay - slack == Sum(Duration, log, 0, USER_TYPES) - history.threads * (USER_TYPES * deadline)
    {
      delay, slack := ring[sampleNum].totals.delay, ring[sampleNum].totals.slack;
      LastSample();
      ghost var log := Before(history, |history.samples|);
      assert collected[|collected| - 1] == TotalsOf(log, history.threads, deadline);
      GridBalance(log, history.threads, 0, USER_TYPES, deadline);
      GridIsSum(Duration, log, history.threads, 0, USER_TYPES);
    }

    /** The window total is also the sum of the per-period counts of all slots. */
    lemma TpmIsSumOfPeriods()
      requires Valid()
      ensures SumPeriods(ring[..]) == ring[sampleNum].tpm
    {
      LastSample();
      SlotsSumUp(ring[..], collected);
    }
  }

  /** The events recorded between the last two samples. */
  ghost function Recent(h: History): seq<Event>
    requires HistoryOk(h)
  {
    var n := |h.samples|;
    if n == 0 then [] else Before(h, n)[|Before(h, n - 1)|..]
  }

  lemma BeforeGrows(h: History, i: int, k: int)
    requires HistoryOk(h) && i <= k <= |h.samples|
    ensures Before(h, i) <= Before(h, k)
  {
    if 0 < i < k {
      assert h.samples[i - 1] <= h.samples[k - 1];
    }
  }

  lemma CumGrows(q: Quantity, h: History, i: int, k: int)
    requires HistoryOk(h) && i <= k <= |h.samples|
    ensures |Before(h, i)| <= |Before(h, k)|
    ensures Cum(q, h, k) - Cum(q, h, i) == Sum(q, Before(h, k)[|Before(h, i)|..], 0, USER_TYPES)
  {
    BeforeGrows(h, i, k);
    var cut := |Before(h, i)|;
    assert Before(h, k)[..cut] == Before(h, i);
    SumSplits(q, Before(h, k), cut, 0, USER_TYPES);
  }

  lemma PeriodIsRecent(q: Quantity, h: History)
    requires HistoryOk(h)
    ensures Cum(q, h, |h.samples|) - Cum(q, h, |h.samples| - 1) == Sum(q, Recent(h), 0, USER_TYPES)
  {
    CumGrows(q, h, |h.samples| - 1, |h.samples|);
  }

  /** In every window there are no more timely transactions than transactions. */
  lemma WindowBounds(h: History, i: int, k: int)
    requires HistoryOk(h) && i <= k <= |h.samples|
    ensures 0 <= Cum(Timely, h, k) - Cum(Timely, h, i) <= Cum(Count, h, k) - Cum(Count, h, i)
  {
    CumGrows(Timely, h, i, k);
    CumGrows(Count, h, i, k);
    TimelyBounded(Before(h, k)[|Before(h, i)|..], 0, USER_TYPES);
  }

  // ---------- the slots add up ----------

  function SumPeriods(ring: seq<Sample>): int {
    if ring == [] then 0 else ring[0].periodCount + SumPeriods(ring[1..])
  }

  lemma {:induction false} SumPeriodsConcat(a: seq<Sample>, b: seq<Sample>)
    ensures SumPeriods(a + b) == SumPeriods(a) + SumPeriods(b)
  {
    if a == [] {
      assert a + b == b;
    } else {
      assert (a + b)[1..] == a[1..] + b;
      SumPeriodsConcat(a[1..], b);
    }
  }

  /** Consecutive periods telescope. */
  lemma {:induction false} PeriodsTelescope(window: seq<Sample>, totals: seq<int>)
    requires |totals| == |window| + 1
    requires forall t :: 0 <= t < |window| ==> window[t].periodCount == totals[t + 1] - totals[t]
    ensures SumPeriods(window) == totals[|window|] - totals[0]
    decreases |window|
  {
    if window != [] {
      PeriodsTelescope(window[1..], totals[1..]);
    }
  }

  /** The ring, oldest sample first. */
  function OldestFirst(ring: seq<Sample>, newest: nat): seq<Sample>
    requires newest < |ring|
  {
    ring[newest + 1..] + ring[..newest + 1]
  }

  lemma OldestFirstSum(ring: seq<Sample>, newest: nat)
    requires newest < |ring|
    ensures SumPeriods(OldestFirst(ring, newest)) == SumPeriods(ring)
  {
    var young, old_ := ring[..newest + 1], ring[newest + 1..];
    SumPeriodsConcat(young, old_);
    SumPeriodsConcat(old_, young);
    assert young + old_ == ring;
  }

  /** Where the `t`-th oldest sample of the window sits. */
  lemma WindowSlot(n: int, slots: nat, t: nat)
    requires 0 < slots && t < slots
    ensures var m := SlotOf(n, slots) + 1;
      SlotOf(n - slots + 1 + t, slots) == if t < slots - m then m + t else t - (slots - m)
  {
    var q, r := n / slots, n % slots;
    assert n == q * slots + r;
    assert (q - 1) * slots == q * slots - slots;
    if t < slots - r - 1 {
      SlotIs(n - slots + 1 + t, slots, q - 1, r + 1 + t);
    } else {
      SlotIs(n - slots + 1 + t, slots, q, t - (slots - r - 1));
    }
  }

  lemma WindowPeriod(ring: seq<Sample>, all: seq<Totals>, t: nat)
    requires RingHolds(ring, all) && t < |ring|
    ensures var k := |all| - |ring| + 1 + t;
      OldestFirst(ring, SlotOf(|all|, |ring|))[t] == SampleOf(all, k, |ring|)
  {
    WindowSlot(|all|, |ring|, t);
  }

  /** The cumulative counts at the samples `first`, `first + 1`, ... up to the last. */
  function CountsFrom(all: seq<Totals>, first: int): (r: seq<int>)
    requires first <= |all|
    ensures |r| == |all| - first + 1
    ensures forall t :: 0 <= t < |r| ==> r[t] == Nth(all, first + t).count
  {
    seq(|all| - first + 1, t requires 0 <= t <= |all| - first => Nth(all, first + t).count)
  }

  lemma SlotsSumUp(ring: seq<Sample>, all: seq<Totals>)
    requires RingHolds(ring, all)
    ensures SumPeriods(ring) == Nth(all, |all|).count - Nth(all, |all| - |ring|).count
  {
    var newest, first := SlotOf(|all|, |ring|), |all| - |ring|;
    var window := OldestFirst(ring, newest);
    var totals := CountsFrom(all, first);
    OldestFirstSum(ring, newest);
    forall t | 0 <= t < |ring|
      ensures window[t].periodCount == totals[t + 1] - totals[t]
    {
      WindowPeriod(ring, all, t);
    }
    PeriodsTelescope(window, totals);
  }
}
