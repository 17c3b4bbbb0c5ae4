/** The log of recorded transactions, and what the statistics should say about it. */

module EventLog {

  /** C division, which truncates towards zero. */
  function TruncDiv(a: int, b: int): int
    requires b > 0
  {
    if a >= 0 then a / b else -(-a / b)
  }

  datatype Time = Time(sec: int, usec: int)

  /** Difference in milliseconds, as `diff_time` computes it. */
  function DiffTime(start: Time, end: Time): int {
    (end.sec * 1000 + TruncDiv(end.usec, 1000)) - (start.sec * 1000 + TruncDiv(start.usec, 1000))
  }

  /** Difference in microseconds. */
  function UdiffTime(start: Time, end: Time): int {
    (end.sec * 1000000 + end.usec) - (start.sec * 1000000 + start.usec)
  }

  /** The two clocks never differ by a whole millisecond. */
  lemma ClocksAgree(start: Time, end: Time)
    requires 0 <= start.usec < 1000000 && 0 <= end.usec < 1000000
    ensures -1000 < UdiffTime(start, end) - 1000 * DiffTime(start, end) < 1000
  {
    assert start.usec == 1000 * (start.usec / 1000) + start.usec % 1000;
    assert end.usec == 1000 * (end.usec / 1000) + end.usec % 1000;
  }

  /** Microseconds since the epoch. */
  function Micros(t: Time): int { t.sec * 1000000 + t.usec }

  predicate ValidStamp(t: Time) { 0 <= t.usec < 1000000 }

  lemma Ticks(t: Time)
    requires ValidStamp(t)
    ensures Micros(t) / 1000 == t.sec * 1000 + TruncDiv(t.usec, 1000)
  {
    assert t.usec == 1000 * (t.usec / 1000) + t.usec % 1000;
    assert Micros(t) == 1000 * (t.sec * 1000 + t.usec / 1000) + t.usec % 1000;
  }

  /** The difference in milliseconds is the number of millisecond boundaries passed. */
  lemma DiffTimeCountsTicks(start: Time, end: Time)
    requires ValidStamp(start) && ValidStamp(end)
    ensures DiffTime(start, end) == Micros(end) / 1000 - Micros(start) / 1000
  {
    Ticks(start);
    Ticks(end);
  }

  const SUCCESS := 0

  /** Transaction types: the user types come first, the refresh type is the last. */
  const TYPES := 5
  const USER_TYPES := 4

  /** One recorded transaction. */
  datatype Event = Event(thread: nat, kind: nat, duration: int, success: bool, timely: bool)

  function Recorded(start: Time, end: Time, desiredDelay: int, kind: nat, rc: int, thread: nat): Event {
    var d := DiffTime(start, end);
    Event(thread, kind, d, rc == SUCCESS, rc == SUCCESS && d < desiredDelay)
  }

  /** What counts as timely, from the time stamps: a success that took at most a millisecond less
      than the bound does, one that took at least a millisecond more does not, a failure never. */
  lemma TimelyFromStamps(start: Time, end: Time, desiredDelay: int, kind: nat, rc: int, thread: nat)
    requires ValidStamp(start) && ValidStamp(end)
    ensures var e := Recorded(start, end, desiredDelay, kind, rc, thread); var u := Micros(end) - Micros(start);
      && -1000 < 1000 * e.duration - u < 1000
      && (e.success <==> rc == 0) && (e.timely ==> rc == 0)
      && (rc == 0 && u <= 1000 * (desiredDelay - 1) ==> e.timely)
      && (u >= 1000 * (desiredDelay + 1) ==> !e.timely)
  {
    ClocksAgree(start, end);
  }

  /** Ending earlier never loses timeliness. */
  lemma EarlierStaysTimely(start: Time, early: Time, late: Time, desiredDelay: int, kind: nat, rc: int, thread: nat)
    requires ValidStamp(start) && ValidStamp(early) && ValidStamp(late) && Micros(early) <= Micros(late)
    ensures Recorded(start, late, desiredDelay, kind, rc, thread).timely ==>
            Recorded(start, early, desiredDelay, kind, rc, thread).timely
  {
    DiffTimeCountsTicks(start, early);
    DiffTimeCountsTicks(start, late);
  }

  /** The counters of one thread for one transaction type. */
  datatype Tally = Tally(success: nat, failed: nat, timely: nat, duration: int, maxTime: int)

  const ZERO := Tally(0, 0, 0, 0, 0)

  function Add(t: Tally, e: Event): Tally {
    Tally(t.success + (if e.success then 1 else 0), t.failed + (if e.success then 0 else 1),
          t.timely + (if e.timely then 1 else 0), t.duration + e.duration,
          if e.duration > t.maxTime then e.duration else t.maxTime)
  }

  /** What one recorded transaction does to the counters of its thread and type, from its time
      stamps and its result code: which of them grow by one, and by how much the duration does -
      the number of millisecond boundaries between the stamps. */
  predicate CountsOne(was: Tally, now: Tally, start: Time, end: Time, desiredDelay: int, rc: int) {
    var duration, micros := now.duration - was.duration, (end.sec - start.sec) * 1000000 + end.usec - start.usec;
    var ticks := (end.sec * 1000000 + end.usec) / 1000 - (start.sec * 1000000 + start.usec) / 1000;
    && now.success == was.success + (if rc == 0 then 1 else 0)
    && now.failed == was.failed + (if rc == 0 then 0 else 1)
    && (now.timely == was.timely || (rc == 0 && now.timely == was.timely + 1))
    && now.maxTime == (if duration > was.maxTime then duration else was.maxTime)
    && (ValidStamp(start) && ValidStamp(end) ==>
          && duration == ticks && -1000 < 1000 * duration - micros < 1000
          && (now.timely == was.timely + 1 <==> rc == 0 && ticks < desiredDelay)
          && (rc == 0 && micros <= 1000 * (desiredDelay - 1) ==> now.timely == was.timely + 1)
          && (micros >= 1000 * (desiredDelay + 1) ==> now.timely == was.timely))
  }

  lemma AddFromStamps(was: Tally, start: Time, end: Time, desiredDelay: int, kind: nat, rc: int, thread: nat)
    ensures CountsOne(was, Add(was, Recorded(start, end, desiredDelay, kind, rc, thread)),
                      start, end, desiredDelay, rc)
  {
    if ValidStamp(start) && ValidStamp(end) {
      TimelyFromStamps(start, end, desiredDelay, kind, rc, thread);
      DiffTimeCountsTicks(start, end);
    }
  }

  function TallyOf(log: seq<Event>, thread: nat, kind: nat): Tally {
    if log == [] then ZERO
    else
      var n := |log| - 1;
      var before := TallyOf(log[..n], thread, kind);
      if log[n].thread == thread && log[n].kind == kind then Add(before, log[n]) else before
  }

  /** A recorded transaction shows in the tally of its thread and type, and in no other. */
  lemma TallyGrows(log: seq<Event>, e: Event, thread: nat, kind: nat)
    ensures TallyOf(log + [e], thread, kind) ==
      if e.thread == thread && e.kind == kind then Add(TallyOf(log, thread, kind), e)
      else TallyOf(log, thread, kind)
  {
    assert (log + [e])[..|log|] == log;
  }

  /** What the sampler extracts from one tally. */
  datatype Quantity = Count | Timely | Duration | Delay(deadline: int) | Slack(deadline: int)

  function Get(q: Quantity, t: Tally): int {
    match q
    case Count => t.success + t.failed
    case Timely => t.timely
    case Duration => t.duration
    case Delay(deadline) => if t.duration > deadline then t.duration - deadline else 0
    case Slack(deadline) => if t.duration > deadline then 0 else deadline - t.duration
  }

  /** Delay and slack split the distance of a total duration from the deadline: neither is
      negative, one of them is zero, and together they are the distance. */
  lemma DelayOrSlack(t: Tally, deadline: int)
    ensures var delay, slack := Get(Delay(deadline), t), Get(Slack(deadline), t);
      && delay >= 0 && slack >= 0 && (delay == 0 || slack == 0)
      && t.duration == deadline + delay - slack
  {
  }

  predicate Additive(q: Quantity) { q.Count? || q.Timely? || q.Duration? }

  /** The sum of a quantity over the types `lo..hi` of one thread. */
  function Row(q: Quantity, log: seq<Event>, thread: nat, lo: nat, hi: nat): int
    requires lo <= hi
  {
    if lo == hi then 0
    else Row(q, log, thread, lo, hi - 1) + Get(q, TallyOf(log, thread, hi - 1))
  }

  /** The sum over the first `threads` threads. */
  function Grid(q: Quantity, log: seq<Event>, threads: nat, lo: nat, hi: nat): int
    requires lo <= hi
  {
    if threads == 0 then 0
    else Grid(q, log, threads - 1, lo, hi) + Row(q, log, threads - 1, lo, hi)
  }

  /** The same quantity read off the log alone: the sum over the events of the given types. */
  function Sum(q: Quantity, log: seq<Event>, lo: nat, hi: nat): int {
    if log == [] then 0
    else
      var e := log[|log| - 1];
      Sum(q, log[..|log| - 1], lo, hi) + (if lo <= e.kind < hi then Get(q, Add(ZERO, e)) else 0)
  }

  /** The positions of the events of the given types, all or only the timely ones. */
  function Positions(log: seq<Event>, lo: nat, hi: nat, timelyOnly: bool): set<nat> {
    set i | 0 <= i < |log| && lo <= log[i].kind < hi && (timelyOnly ==> log[i].timely)
  }

  lemma PositionsGrow(log: seq<Event>, lo: nat, hi: nat, timelyOnly: bool)
    requires log != []
    ensures var e := log[|log| - 1];
      |Positions(log, lo, hi, timelyOnly)| == |Positions(log[..|log| - 1], lo, hi, timelyOnly)|
        + if lo <= e.kind < hi && (timelyOnly ==> e.timely) then 1 else 0
  {
    var n := |log| - 1;
    assert Positions(log, lo, hi, timelyOnly) == Positions(log[..n], lo, hi, timelyOnly)
           + if lo <= log[n].kind < hi && (timelyOnly ==> log[n].timely) then {n} else {};
  }

  /** The sums of the log are numbers of events. */
  lemma {:induction false} SumsCount(log: seq<Event>, lo: nat, hi: nat)
    ensures Sum(Count, log, lo, hi) == |Positions(log, lo, hi, false)|
    ensures Sum(Timely, log, lo, hi) == |Positions(log, lo, hi, true)|
    decreases |log|
  {
    if log != [] {
      SumsCount(log[..|log| - 1], lo, hi);
      PositionsGrow(log, lo, hi, false);
      PositionsGrow(log, lo, hi, true);
    }
  }

  predicate FromThreads(log: seq<Event>, threads: nat) {
    forall i :: 0 <= i < |log| ==> log[i].thread < threads
  }

  lemma {:induction false} RowGrows(q: Quantity, log: seq<Event>, thread: nat, lo: nat, hi: nat)
    requires log != [] && lo <= hi && Additive(q)
    ensures var e := log[|log| - 1];
      Row(q, log, thread, lo, hi) == Row(q, log[..|log| - 1], thread, lo, hi)
        + if e.thread == thread && lo <= e.kind < hi then Get(q, Add(ZERO, e)) else 0
    decreases hi
  {
    if lo < hi {
      RowGrows(q, log, thread, lo, hi - 1);
    }
  }

  lemma {:induction false} GridGrows(q: Quantity, log: seq<Event>, threads: nat, lo: nat, hi: nat)
    requires log != [] && lo <= hi && Additive(q)
    ensures var e := log[|log| - 1];
      Grid(q, log, threads, lo, hi) == Grid(q, log[..|log| - 1], threads, lo, hi)
        + if e.thread < threads && lo <= e.kind < hi then Get(q, Add(ZERO, e)) else 0
    decreases threads
  {
    if threads > 0 {
      GridGrows(q, log, threads - 1, lo, hi);
      RowGrows(q, log, threads - 1, lo, hi);
    }
  }

  lemma {:induction false} EmptyRow(q: Quantity, thread: nat, lo: nat, hi: nat)
    requires lo <= hi && Additive(q)
    ensures Row(q, [], thread, lo, hi) == 0
    decreases hi
  {
    if lo < hi {
      EmptyRow(q, thread, lo, hi - 1);
    }
  }

  lemma {:induction false} EmptyGrid(q: Quantity, threads: nat, lo: nat, hi: nat)
    requires lo <= hi && Additive(q)
    ensures Grid(q, [], threads, lo, hi) == 0
    decreases threads
  {
    if threads > 0 {
      EmptyGrid(q, threads - 1, lo, hi);
      EmptyRow(q, threads - 1, lo, hi);
    }
  }

  /** Summing the counters over threads and types counts every recorded transaction of those
      types exactly once. */
  lemma {:induction false} GridIsSum(q: Quantity, log: seq<Event>, threads: nat, lo: nat, hi: nat)
    requires lo <= hi && Additive(q) && FromThreads(log, threads)
    ensures Grid(q, log, threads, lo, hi) == Sum(q, log, lo, hi)
    decreases |log|
  {
    if log == [] {
      EmptyGrid(q, threads, lo, hi);
    } else {
      GridGrows(q, log, threads, lo, hi);
      GridIsSum(q, log[..|log| - 1], threads, lo, hi);
    }
  }

  lemma {:induction false} RowBalance(log: seq<Event>, thread: nat, lo: nat, hi: nat, deadline: int)
    requires lo <= hi
    ensures Row(Delay(deadline), log, thread, lo, hi) - Row(Slack(deadline), log, thread, lo, hi) ==
            Row(Duration, log, thread, lo, hi) - (hi - lo) * deadline
    ensures Row(Delay(deadline), log, thread, lo, hi) >= 0 && Row(Slack(deadline), log, thread, lo, hi) >= 0
    decreases hi
  {
    if lo < hi {
      RowBalance(log, thread, lo, hi - 1, deadline);
      assert (hi - lo) * deadline == (hi - 1 - lo) * deadline + deadline;
    }
  }

  /** Total delay and total slack balance against the total duration: they differ by one
      deadline for every thread and type. */
  lemma {:induction false} GridBalance(log: seq<Event>, threads: nat, lo: nat, hi: nat, deadline: int)
    requires lo <= hi
    ensures Grid(Delay(deadline), log, threads, lo, hi) - Grid(Slack(deadline), log, threads, lo, hi) ==
            Grid(Duration, log, threads, lo, hi) - threads * ((hi - lo) * deadline)
    ensures Grid(Delay(deadline), log, threads, lo, hi) >= 0 && Grid(Slack(deadline), log, threads, lo, hi) >= 0
    decreases threads
  {
    if threads > 0 {
      GridBalance(log, threads - 1, lo, hi, deadline);
      RowBalance(log, threads - 1, lo, hi, deadline);
      var d := (hi - lo) * deadline;
      assert threads * d == (threads - 1) * d + d;
    }
  }

  lemma {:induction false} SumSplits(q: Quantity, log: seq<Event>, cut: nat, lo: nat, hi: nat)
    requires cut <= |log|
    ensures Sum(q, log, lo, hi) == Sum(q, log[..cut], lo, hi) + Sum(q, log[cut..], lo, hi)
    decreases |log|
  {
    if cut == |log| {
      assert log[..cut] == log && log[cut..] == [];
    } else {
      var n := |log| - 1;
      SumSplits(q, log[..n], cut, lo, hi);
      assert log[..n][..cut] == log[..cut] && log[cut..][..n - cut] == log[..n][cut..];
    }
  }

  /** A timely transaction must have come from a successful one. */
  predicate TimelyOk(log: seq<Event>) {
    forall i :: 0 <= i < |log| ==> log[i].timely ==> log[i].success
  }

  lemma {:induction false} TimelyTally(log: seq<Event>, thread: nat, kind: nat)
    requires TimelyOk(log)
    ensures var t := TallyOf(log, thread, kind); 0 <= t.timely <= t.success
    decreases |log|
  {
    if log != [] {
      TimelyTally(log[..|log| - 1], thread, kind);
    }
  }

  predicate Ran(e: Event, thread: nat, kind: nat) { e.thread == thread && e.kind == kind }

  /** The maximal time is the largest duration recorded for that thread and type, at least 0. */
  lemma {:induction false} MaxTimeIsMax(log: seq<Event>, thread: nat, kind: nat)
    ensures var m := TallyOf(log, thread, kind).maxTime;
      && m >= 0 && (forall i :: 0 <= i < |log| && Ran(log[i], thread, kind) ==> log[i].duration <= m)
      && (m == 0 || exists i :: 0 <= i < |log| && Ran(log[i], thread, kind) && log[i].duration == m)
    decreases |log|
  {
    if log != [] {
      var n := |log| - 1;
      MaxTimeIsMax(log[..n], thread, kind);
      var before, m := TallyOf(log[..n], thread, kind).maxTime, TallyOf(log, thread, kind).maxTime;
      if m == before && m != 0 {
        var i :| 0 <= i < n && Ran(log[..n][i], thread, kind) && log[..n][i].duration == m;
        assert Ran(log[i], thread, kind) && log[i].duration == m;
      }
      forall i | 0 <= i < |log| && Ran(log[i], thread, kind) ensures log[i].duration <= m {
        if i < n { assert log[..n][i] == log[i]; }
      }
    }
  }

  lemma {:induction false} TimelyBounded(log: seq<Event>, lo: nat, hi: nat)
    ensures 0 <= Sum(Timely, log, lo, hi) <= Sum(Count, log, lo, hi)
    decreases |log|
  {
    if log != [] {
      TimelyBounded(log[..|log| - 1], lo, hi);
    }
  }
}
