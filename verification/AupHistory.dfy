/** The adaptive update policy in terms of the calls made on it: what its counters count, which
    items a relaxation reaches, and how they start. */

module AupHistory {
  import opened Aup

  /** The calls that incremented the access counter of item `i` since it was last reset. */
  function Accesses(ops: seq<Op>, i: nat): nat {
    if ops == [] then 0
    else
      var before := Accesses(ops[..|ops| - 1], i);
      match ops[|ops| - 1]
      case AfIncr(k) => if k == i then before + 1 else before
      case AfReset(k) => if k == i then 0 else before
      case ResetAll => 0
      case _ => before
  }

  /** The calls that incremented its update counter since that was last reset. */
  function Updates(ops: seq<Op>, i: nat): nat {
    if ops == [] then 0
    else
      var before := Updates(ops[..|ops| - 1], i);
      match ops[|ops| - 1]
      case UfIncr(k) => if k == i then before + 1 else before
      case UfReset(k) => if k == i then 0 else before
      case ResetAll => 0
      case _ => before
  }

  lemma {:induction false} RunUnfolds(e: Env, ops: seq<Op>)
    requires ValidCalls(e, ops) && ops != []
    ensures var before, last := ops[..|ops| - 1], ops[|ops| - 1];
      && ValidCalls(e, before) && Admissible(Run(e, before), last)
      && Run(e, ops) == Apply(Run(e, before), last)
    decreases |ops|
  {
    if |ops| > 1 {
      RunUnfolds(Apply(e, ops[0]), ops[1..]);
      assert ops[1..][..|ops| - 2] == ops[..|ops| - 1][1..];
    }
  }

  /** The counters of one item. */
  datatype Counters = Counters(id: int, accesses: int, updates: int)

  function CountersOf(x: Item): Counters { Counters(x.id, x.accesses, x.updates) }

  lemma RelaxKeepsCounters(e: Env, ds: real, i: nat)
    requires Admissible(e, Relax(ds)) && i < |e.items|
    ensures |Apply(e, Relax(ds)).items| == |e.items|
    ensures CountersOf(Apply(e, Relax(ds)).items[i]) == CountersOf(e.items[i])
  {
    RelaxFirstAt(e.items, Target(|e.items|, ds), i);
  }

  /** After any calls on a new environment an item's counters are the numbers of increments since
      their last resets, and it is still the same item. */
  lemma {:induction false} CountersAreCalls(n: nat, avi: real, beta: real, ops: seq<Op>, i: nat)
    requires i < n && ValidCalls(NewEnv(n, avi, beta), ops)
    ensures var e := Run(NewEnv(n, avi, beta), ops);
      |e.items| == n && CountersOf(e.items[i]) == Counters(i, Accesses(ops, i), Updates(ops, i))
    decreases |ops|
  {
    if ops != [] {
      var before, last := ops[..|ops| - 1], ops[|ops| - 1];
      RunUnfolds(NewEnv(n, avi, beta), ops);
      CountersAreCalls(n, avi, beta, before, i);
      var e := Run(NewEnv(n, avi, beta), before);
      SizeKept(e, last);
      if last.Relax? { RelaxKeepsCounters(e, last.ds, i); }
    }
  }

  /** More updates than accesses since the last resets. */
  predicate UpdatedMore(ops: seq<Op>, i: nat) { Updates(ops, i) > Accesses(ops, i) }

  /** An item is cold exactly when it was updated more often than accessed. */
  lemma ColdExactlyWhen(n: nat, avi: real, beta: real, ops: seq<Op>, i: nat)
    requires i < n && ValidCalls(NewEnv(n, avi, beta), ops)
    ensures var e := Run(NewEnv(n, avi, beta), ops);
      |e.items| == n && (Cold(e.items[i]) <==> UpdatedMore(ops, i))
  {
    CountersAreCalls(n, avi, beta, ops, i);
  }

  // ---------- which items a relaxation reaches ----------

  /** The budget of a relaxation: none of the items for a degree of at most 0, all of them from 1
      on, and the whole part of that share in between. */
  lemma TargetIs(n: nat, ds: real)
    ensures ds <= 0.0 ==> Target(n, ds) <= 0
    ensures ds >= 1.0 ==> Target(n, ds) == n
    ensures 0.0 <= ds <= 1.0 ==> Target(n, ds) as real <= ds * n as real < Target(n, ds) as real + 1.0
  {
    Share(n as real, ds);
  }

  lemma Share(n: real, ds: real)
    requires n >= 0.0
    ensures ds <= 0.0 ==> ds * n <= 0.0
    ensures ds >= 1.0 ==> ds * n >= n
    ensures 0.0 <= ds <= 1.0 ==> 0.0 <= ds * n <= n
  {
    if ds <= 0.0 { assert (-ds) * n >= 0.0; }
    if ds >= 1.0 { assert (ds - 1.0) * n >= 0.0; }
    if 0.0 <= ds <= 1.0 { assert (1.0 - ds) * n >= 0.0; }
  }

  /** The items before item `i` that were updated more often than accessed. */
  function UpdatedMoreBefore(ops: seq<Op>, i: nat): set<nat> {
    set k | 0 <= k < i && UpdatedMore(ops, k)
  }

  lemma {:induction false} ColdAmongIs(n: nat, avi: real, beta: real, ops: seq<Op>, i: nat)
    requires i <= n && ValidCalls(NewEnv(n, avi, beta), ops)
    ensures var e := Run(NewEnv(n, avi, beta), ops);
      |e.items| == n && ColdAmong(e.items[..i]) == |UpdatedMoreBefore(ops, i)|
    decreases i
  {
    var e := Run(NewEnv(n, avi, beta), ops);
    RunSize(NewEnv(n, avi, beta), ops);
    if i > 0 {
      ColdAmongIs(n, avi, beta, ops, i - 1);
      ColdCount(e.items, i - 1);
      ColdExactlyWhen(n, avi, beta, ops, i - 1);
      assert UpdatedMoreBefore(ops, i) ==
             UpdatedMoreBefore(ops, i - 1) + if UpdatedMore(ops, i - 1) then {i - 1} else {};
    }
  }

  lemma {:induction false} RunSize(e: Env, ops: seq<Op>)
    requires ValidCalls(e, ops)
    ensures |Run(e, ops).items| == |e.items|
    decreases |ops|
  {
    if ops != [] {
      SizeKept(e, ops[0]);
      RunSize(Apply(e, ops[0]), ops[1..]);
    }
  }

  /** A relaxation reaches exactly the items that were updated more often than accessed and have
      fewer such items before them than the budget. */
  lemma RelaxationReaches(n: nat, avi: real, beta: real, ops: seq<Op>, ds: real, i: nat)
    requires i < n && ValidCalls(NewEnv(n, avi, beta), ops)
    requires Admissible(Run(NewEnv(n, avi, beta), ops), Relax(ds))
    ensures var e := Run(NewEnv(n, avi, beta), ops); var t := Apply(e, Relax(ds));
      && |e.items| == |t.items| == n
      && t.items[i] == if UpdatedMore(ops, i) && |UpdatedMoreBefore(ops, i)| < Target(n, ds)
                       then Relaxed(e.items[i]) else e.items[i]
  {
    var e := Run(NewEnv(n, avi, beta), ops);
    ColdExactlyWhen(n, avi, beta, ops, i);
    ColdAmongIs(n, avi, beta, ops, i);
    RelaxFirstAt(e.items, Target(n, ds), i);
  }

  /** A new item is due at once. */
  lemma NewItemsAreDue(n: nat, avi: real, beta: real, lo: nat, hi: nat, now: int)
    requires lo <= hi <= n && now >= 0
    ensures var r := Expired(NewEnv(n, avi, beta).items, lo, hi, now);
      |r| == hi - lo && forall i :: lo <= i < hi ==> i in r
  {
    ExpiredIsExact(NewEnv(n, avi, beta).items, lo, hi, now);
    AllNewExpire(n, avi, beta, lo, hi, now);
  }

  lemma {:induction false} AllNewExpire(n: nat, avi: real, beta: real, lo: nat, hi: nat, now: int)
    requires lo <= hi <= n && now >= 0
    ensures |Expired(NewEnv(n, avi, beta).items, lo, hi, now)| == hi - lo
    decreases hi
  {
    if lo < hi {
      AllNewExpire(n, avi, beta, lo, hi - 1, now);
    }
  }
}
