/** The update threads' use of the schedule: select expired items of the own range, build a
    request, reschedule them. Threads run concurrently under a monotone clock, and any other
    call on the environment may come in between. */

module UpdateCycle {
  import opened Aup

  /** A thread is between cycles, or holds the items it selected and has yet to reschedule. */
  datatype Phase = Resting | Holding(list: seq<int>)

  /** When an item was last rescheduled, and its flexible interval at that time. */
  datatype Stamp = Never | At(time: int, fvi: real)

  /** `width` is the number of items per thread, `size` the length of a thread's list. `stamps`
      and `chosen`, the items ever selected, are history. */
  datatype State = State(threads: seq<Phase>, env: Env, clock: int, width: nat, size: nat,
                         stamps: seq<Stamp>, chosen: set<int>)

  datatype Label =
    | Select(t: nat, now: int)
    | Reschedule(t: nat, now: int)
    | Other(op: Op)

  /** Where the range of thread `t` starts when every thread has `width` items: at their
      product, by `RangeStartIsProduct`. */
  function RangeStart(t: nat, width: nat): nat {
    if t == 0 then 0 else RangeStart(t - 1, width) + width
  }

  lemma {:induction false} RangeStartIsProduct(t: nat, width: nat)
    ensures RangeStart(t, width) == t * width
  {
    if t > 0 {
      RangeStartIsProduct(t - 1, width);
      assert t * width == (t - 1) * width + width;
    }
  }

  function First(s: State, t: nat): nat { RangeStart(t, s.width) }

  /** The threads' ranges lie inside the array. */
  predicate Fits(s: State) {
    First(s, |s.threads|) <= |s.env.items| && |s.stamps| == |s.env.items|
  }

  lemma RangeFits(s: State, t: nat)
    requires Fits(s) && t < |s.threads|
    ensures First(s, t) + s.width <= |s.env.items|
  {
    RangesInOrder(t + 1, |s.threads|, s.width);
  }

  lemma {:induction false} RangesInOrder(a: nat, b: nat, width: nat)
    requires a <= b
    ensures RangeStart(a, width) <= RangeStart(b, width)
    decreases b
  {
    if a < b {
      RangesInOrder(a, b - 1, width);
    }
  }

  /** What thread `t` selects at time `now`. */
  function Selection(s: State, t: nat, now: int): seq<int>
    requires Fits(s) && t < |s.threads|
  {
    RangeFits(s, t);
    FirstOf(Expired(s.env.items, First(s, t), First(s, t) + s.width, now), s.size)
  }

  predicate InRange(s: State, t: nat, item: int) {
    First(s, t) <= item < First(s, t) + s.width
  }

  predicate Enabled(s: State, l: Label) {
    && Fits(s)
    && match l
       case Select(t, now) => t < |s.threads| && s.threads[t].Resting? && s.clock <= now
       case Reschedule(t, now) =>
         && t < |s.threads| && s.threads[t].Holding? && s.clock <= now
         && Admissible(s.env, NextSet(now, s.threads[t].list))
       case Other(op) => Admissible(s.env, op) && !op.NextSet?
  }

  function Stamped(s: State, now: int, list: seq<int>): (r: seq<Stamp>)
    requires Fits(s)
    ensures |r| == |s.stamps|
  {
    seq(|s.stamps|, i requires 0 <= i < |s.stamps| =>
          if i in list then At(now, s.env.items[i].fvi) else s.stamps[i])
  }

  function Step(s: State, l: Label): State
    requires Enabled(s, l)
  {
    match l
    case Select(t, now) =>
      var list := Selection(s, t, now);
      s.(threads := s.threads[t := if list == [] then Resting else Holding(list)], clock := now,
         chosen := s.chosen + set i | i in list)
    case Reschedule(t, now) =>
      var list := s.threads[t].list;
      s.(threads := s.threads[t := Resting], env := Apply(s.env, NextSet(now, list)),
         stamps := Stamped(s, now, list), clock := now)
    case Other(op) => s.(env := Apply(s.env, op))
  }

  function Init(threads: nat, n: nat, avi: real, beta: real, width: nat, size: nat, clock: int): State {
    State(seq(threads, _ => Resting), NewEnv(n, avi, beta), clock, width, size, seq(n, _ => Never), {})
  }

  predicate ValidRun(s: State, ls: seq<Label>)
    decreases |ls|
  {
    ls != [] ==> Enabled(s, ls[0]) && ValidRun(Step(s, ls[0]), ls[1..])
  }

  function Exec(s: State, ls: seq<Label>): State
    requires ValidRun(s, ls)
    decreases |ls|
  {
    if ls == [] then s else Exec(Step(s, ls[0]), ls[1..])
  }

  /** A held item belongs to its holder's range; a rescheduled item is due half its interval
      after that time. */
  ghost predicate Inv(s: State) {
    && Fits(s)
    && (forall t, k :: 0 <= t < |s.threads| && s.threads[t].Holding? && 0 <= k < |s.threads[t].list| ==>
          InRange(s, t, s.threads[t].list[k]))
    && (forall i :: 0 <= i < |s.stamps| && s.stamps[i].At? ==>
          s.env.items[i].next == Trunc(s.stamps[i].time as real + 0.5 * s.stamps[i].fvi))
    && (forall i :: i in s.chosen ==>
          0 <= i < |s.stamps|
          && (s.stamps[i].At? || exists t :: 0 <= t < |s.threads| && HeldBy(s.threads[t], i)))
  }

  predicate HeldBy(p: Phase, item: int) { p.Holding? && item in p.list }

  lemma SelectionIsExact(s: State, t: nat, now: int)
    requires Fits(s) && t < |s.threads|
    ensures First(s, t) + s.width <= |s.env.items|
    ensures ListsFirst(Selection(s, t, now), s.size, s.env.items, First(s, t), First(s, t) + s.width, now)
  {
    RangeFits(s, t);
    var lo, hi := First(s, t), First(s, t) + s.width;
    ExpiredIsExact(s.env.items, lo, hi, now);
    FirstOfLists(Expired(s.env.items, lo, hi, now), s.size, s.env.items, lo, hi, now);
  }

  /** A list as long as the range misses nothing that is due. */
  lemma WideListsAreComplete(s: State, t: nat, now: int, item: nat)
    requires Fits(s) && t < |s.threads| && s.width <= s.size
    requires item < |s.env.items| && InRange(s, t, item) && s.env.items[item].next <= now
    ensures item in Selection(s, t, now)
  {
    RangeFits(s, t);
    ExpiredIsExact(s.env.items, First(s, t), First(s, t) + s.width, now);
  }

  lemma SelectedItem(s: State, t: nat, now: int, k: nat)
    requires Fits(s) && t < |s.threads| && k < |Selection(s, t, now)|
    ensures var item := Selection(s, t, now)[k];
      0 <= item < |s.env.items| && InRange(s, t, item) && s.env.items[item].next <= now
  {
    SelectionIsExact(s, t, now);
    assert Selection(s, t, now)[k] in Selection(s, t, now);
  }

  lemma SelectKeepsInv(s: State, t: nat, now: int)
    requires Inv(s) && Enabled(s, Select(t, now))
    ensures Inv(Step(s, Select(t, now)))
  {
    var list := Selection(s, t, now);
    forall k | 0 <= k < |list| ensures InRange(s, t, list[k]) && 0 <= list[k] < |s.stamps| {
      SelectedItem(s, t, now, k);
    }
    assert forall i :: i in list ==> exists k :: 0 <= k < |list| && list[k] == i;
    var s' := Step(s, Select(t, now));
    forall i | i in s'.chosen && !s'.stamps[i].At?
      ensures exists u :: 0 <= u < |s'.threads| && HeldBy(s'.threads[u], i)
    {
      if i in s.chosen {
        var u :| 0 <= u < |s.threads| && HeldBy(s.threads[u], i);
        assert HeldBy(s'.threads[u], i);
      } else {
        assert HeldBy(s'.threads[t], i);
      }
    }
  }

  lemma RescheduleKeepsInv(s: State, t: nat, now: int)
    requires Inv(s) && Enabled(s, Reschedule(t, now))
    ensures Inv(Step(s, Reschedule(t, now)))
  {
    var s' := Step(s, Reschedule(t, now));
    forall i | i in s'.chosen && !s'.stamps[i].At?
      ensures exists u :: 0 <= u < |s'.threads| && HeldBy(s'.threads[u], i)
    {
      var u :| 0 <= u < |s.threads| && HeldBy(s.threads[u], i);
      assert HeldBy(s'.threads[u], i);
    }
  }

  lemma OtherKeepsInv(s: State, op: Op)
    requires Inv(s) && Enabled(s, Other(op))
    ensures Inv(Step(s, Other(op)))
  {
    SizeKept(s.env, op);
    DueTimesKept(s.env, op);
  }

  lemma DueTimesKept(e: Env, op: Op)
    requires Admissible(e, op) && !op.NextSet?
    ensures |Apply(e, op).items| == |e.items|
    ensures forall i :: 0 <= i < |e.items| ==> Apply(e, op).items[i].next == e.items[i].next
  {
    if op.Relax? {
      forall i | 0 <= i < |e.items| ensures Apply(e, op).items[i].next == e.items[i].next {
        RelaxFirstAt(e.items, Target(|e.items|, op.ds), i);
      }
    }
  }

  lemma {:induction false} RunKeepsInv(s: State, ls: seq<Label>)
    requires Inv(s) && ValidRun(s, ls)
    ensures Inv(Exec(s, ls))
    decreases |ls|
  {
    if ls != [] {
      match ls[0] {
        case Select(t, now) => SelectKeepsInv(s, t, now);
        case Reschedule(t, now) => RescheduleKeepsInv(s, t, now);
        case Other(op) => OtherKeepsInv(s, op);
      }
      RunKeepsInv(Step(s, ls[0]), ls[1..]);
    }
  }

  lemma RangesApart(s: State, t: nat, u: nat, item: int)
    requires t < u && InRange(s, t, item)
    ensures !InRange(s, u, item)
  {
    RangesInOrder(t + 1, u, s.width);
  }

  /** The ranges of different thread numbers are disjoint: the range of thread `t` holds the
      items from its number times the width on. */
  lemma RangesAreDisjoint(s: State, t: nat, u: nat, item: int)
    requires t != u
    ensures InRange(s, t, item) <==> t * s.width <= item < t * s.width + s.width
    ensures InRange(s, t, item) ==> !InRange(s, u, item)
  {
    RangeStartIsProduct(t, s.width);
    if t < u && InRange(s, t, item) {
      RangesApart(s, t, u, item);
    } else if InRange(s, t, item) && InRange(s, u, item) {
      RangesApart(s, u, t, item);
    }
  }

  lemma {:induction false} RunKeepsShape(s: State, ls: seq<Label>)
    requires ValidRun(s, ls)
    ensures |Exec(s, ls).threads| == |s.threads| && Exec(s, ls).width == s.width
    decreases |ls|
  {
    if ls != [] {
      RunKeepsShape(Step(s, ls[0]), ls[1..]);
    }
  }

  /** Two threads never select the same item, however far apart in a run. */
  lemma ThreadsNeverShare(s: State, ls: seq<Label>, t: nat, now: int, u: nat, later: int, item: int)
    requires ValidRun(s, ls) && Enabled(s, Select(t, now)) && Enabled(Exec(s, ls), Select(u, later))
    requires item in Selection(s, t, now) && item in Selection(Exec(s, ls), u, later)
    ensures t == u
  {
    RunKeepsShape(s, ls);
    SelectionIsExact(s, t, now);
    SelectionIsExact(Exec(s, ls), u, later);
    if t != u {
      RangesAreDisjoint(s, t, u, item);
    }
  }

  lemma WholePart(time: int, half: real)
    requires half >= 0.0
    ensures time + half.Floor == (time as real + half).Floor
  {
  }

  /** In every run, an item a thread selects is held by no thread, so if it was ever selected
      before it has been rescheduled since; and that was at least half its interval ago,
      rounded down, the interval being the one it had then. */
  lemma SelectionsAreSpaced(threads: nat, n: nat, avi: real, beta: real, width: nat, size: nat,
                            start: int, ls: seq<Label>, t: nat, now: int, k: nat)
    requires avi > 0.0 && RangeStart(threads, width) <= n && start >= 0
    requires ValidRun(Init(threads, n, avi, beta, width, size, start), ls)
    requires var s := Exec(Init(threads, n, avi, beta, width, size, start), ls);
      Enabled(s, Select(t, now)) && k < |Selection(s, t, now)|
    ensures var s := Exec(Init(threads, n, avi, beta, width, size, start), ls);
      var i := Selection(s, t, now)[k];
      && 0 <= i < |s.stamps|
      && (forall u :: 0 <= u < |s.threads| ==> !HeldBy(s.threads[u], i))
      && (i in s.chosen ==> s.stamps[i].At?)
      && (s.stamps[i].At? ==> now >= s.stamps[i].time + (0.5 * s.stamps[i].fvi).Floor)
  {
    var i0 := Init(threads, n, avi, beta, width, size, start);
    RunKeepsInv(i0, ls);
    StampsArePositive(i0, ls);
    var s := Exec(i0, ls);
    SelectedItem(s, t, now, k);
    SelectedIsFree(s, t, now, k);
    SelectedIsDue(s, t, now, k);
  }

  lemma SelectedIsFree(s: State, t: nat, now: int, k: nat)
    requires Inv(s) && Enabled(s, Select(t, now)) && k < |Selection(s, t, now)|
    ensures forall u :: 0 <= u < |s.threads| ==> !HeldBy(s.threads[u], Selection(s, t, now)[k])
  {
    SelectedItem(s, t, now, k);
    var i := Selection(s, t, now)[k];
    forall u | 0 <= u < |s.threads| ensures !HeldBy(s.threads[u], i) {
      if HeldBy(s.threads[u], i) {
        if u != t {
          RangesAreDisjoint(s, u, t, i);
        }
      }
    }
  }

  /** A rescheduled item is due again exactly half its interval, rounded down, after that. */
  lemma DueExactlyWhen(threads: nat, n: nat, avi: real, beta: real, width: nat, size: nat,
                       start: int, ls: seq<Label>, i: nat, now: int)
    requires avi > 0.0 && RangeStart(threads, width) <= n && start >= 0
    requires ValidRun(Init(threads, n, avi, beta, width, size, start), ls)
    ensures var s := Exec(Init(threads, n, avi, beta, width, size, start), ls);
      |s.stamps| == |s.env.items|
      && (i < |s.stamps| && s.stamps[i].At? ==>
            (s.env.items[i].next <= now <==> now >= s.stamps[i].time + (0.5 * s.stamps[i].fvi).Floor))
  {
    var i0 := Init(threads, n, avi, beta, width, size, start);
    RunKeepsInv(i0, ls);
    StampsArePositive(i0, ls);
    var s := Exec(i0, ls);
    if i < |s.stamps| && s.stamps[i].At? {
      WholePart(s.stamps[i].time, 0.5 * s.stamps[i].fvi);
    }
  }

  lemma SelectedIsDue(s: State, t: nat, now: int, k: nat)
    requires Inv(s) && Grown(s) && Enabled(s, Select(t, now)) && k < |Selection(s, t, now)|
    ensures var i := Selection(s, t, now)[k];
      0 <= i < |s.stamps| &&
      (s.stamps[i].At? ==> now >= s.stamps[i].time + (0.5 * s.stamps[i].fvi).Floor)
  {
    SelectedItem(s, t, now, k);
    var i := Selection(s, t, now)[k];
    if s.stamps[i].At? {
      WholePart(s.stamps[i].time, 0.5 * s.stamps[i].fvi);
    }
  }

  /** Times and intervals never go below where they start. */
  ghost predicate Grown(s: State) {
    && Fits(s) && s.clock >= 0
    && (forall i :: 0 <= i < |s.env.items| ==> s.env.items[i].fvi > 0.0 && s.env.items[i].avi > 0.0)
    && (forall i :: 0 <= i < |s.stamps| && s.stamps[i].At? ==> s.stamps[i].time >= 0 && s.stamps[i].fvi > 0.0)
  }

  lemma OtherKeepsGrown(s: State, op: Op)
    requires Grown(s) && Enabled(s, Other(op))
    ensures Grown(Step(s, Other(op)))
  {
    SizeKept(s.env, op);
    if op.Relax? {
      forall i | 0 <= i < |s.env.items| ensures Apply(s.env, op).items[i].fvi > 0.0 {
        RelaxFirstAt(s.env.items, Target(|s.env.items|, op.ds), i);
      }
      RelaxKeepsPositive(s.env.items, Target(|s.env.items|, op.ds));
    }
  }

  lemma {:induction false} StampsArePositive(s: State, ls: seq<Label>)
    requires Grown(s) && ValidRun(s, ls)
    ensures Grown(Exec(s, ls))
    decreases |ls|
  {
    if ls != [] {
      if ls[0].Other? { OtherKeepsGrown(s, ls[0].op); }
      StampsArePositive(Step(s, ls[0]), ls[1..]);
    }
  }
}
