/** The adaptive update policy: flexible validity intervals that are relaxed geometrically
    under a cap, and the schedule of updates derived from them. */

module Aup {

  /** One data item. */
  datatype Item = Item(id: int, accesses: int, updates: int, fvi: real, avi: real, beta: real, next: int)

  const STEP := 1.1

  /** Conversion of a floating-point value to an integer, which truncates towards zero. */
  function Trunc(x: real): int {
    if x >= 0.0 then x.Floor else -((-x).Floor)
  }

  /** An item updated more often than it is accessed. */
  predicate Cold(x: Item) { x.accesses < x.updates }

  function Relaxed(x: Item): Item {
    var tmp := STEP * x.fvi;
    if x.avi <= tmp && tmp <= x.beta * x.avi then x.(fvi := tmp) else x
  }

  /** How many cold items one relaxation may visit among `n` items. */
  function Target(n: nat, ds: real): int {
    Trunc(if n as real < ds * n as real then n as real else ds * n as real)
  }

  /** Visits cold items in index order until the budget is used up. */
  function RelaxFirst(items: seq<Item>, budget: int): (r: seq<Item>)
    ensures |r| == |items|
    decreases |items|
  {
    if items == [] || budget <= 0 then items
    else if Cold(items[0]) then [Relaxed(items[0])] + RelaxFirst(items[1..], budget - 1)
    else [items[0]] + RelaxFirst(items[1..], budget)
  }

  function ColdAmong(items: seq<Item>): nat {
    if items == [] then 0 else (if Cold(items[0]) then 1 else 0) + ColdAmong(items[1..])
  }

  /** Exactly the cold items with fewer than `budget` cold items before them are relaxed,
      whether or not the relaxation is saturated; everything else stays as it is. */
  lemma {:induction false} RelaxFirstAt(items: seq<Item>, budget: int, i: nat)
    requires i < |items|
    ensures RelaxFirst(items, budget)[i] ==
            if Cold(items[i]) && ColdAmong(items[..i]) < budget then Relaxed(items[i]) else items[i]
    decreases |items|
  {
    if budget > 0 && i > 0 {
      assert items[..i][1..] == items[1..][..i - 1];
      RelaxFirstAt(items[1..], if Cold(items[0]) then budget - 1 else budget, i - 1);
    }
  }

  function Ratio(x: Item): real
    requires x.avi > 0.0
  {
    x.fvi / x.avi
  }

  predicate Positive(items: seq<Item>) { forall i :: 0 <= i < |items| ==> items[i].avi > 0.0 }

  function SumRatios(items: seq<Item>): real
    requires Positive(items)
  {
    if items == [] then 0.0
    else SumRatios(items[..|items| - 1]) + Ratio(items[|items| - 1])
  }

  function Mean(items: seq<Item>): real
    requires Positive(items) && items != []
  {
    SumRatios(items) / |items| as real
  }

  /** The environment: the items and the last extension factor. */
  datatype Env = Env(items: seq<Item>, pExt: real)

  datatype Op =
    | AfIncr(i: nat) | AfReset(i: nat) | UfIncr(i: nat) | UfReset(i: nat) | ResetAll
    | NextSet(now: int, list: seq<int>) | Relax(ds: real)

  predicate Admissible(e: Env, op: Op) {
    match op
    case ResetAll => true
    case NextSet(_, list) => forall k :: 0 <= k < |list| ==> list[k] < |e.items|
    case Relax(_) => Positive(e.items) && e.items != []
    case _ => op.i < |e.items|
  }

  /** The time of the next update of an item rescheduled at `now`. */
  function NextUpdate(now: int, x: Item): int { Trunc(now as real + 0.5 * x.fvi) }

  function Rescheduled(items: seq<Item>, now: int, list: seq<int>): (r: seq<Item>)
    requires forall k :: 0 <= k < |list| ==> list[k] < |items|
    ensures |r| == |items|
  {
    seq(|items|, i requires 0 <= i < |items| =>
          if i in list then items[i].(next := NextUpdate(now, items[i])) else items[i])
  }

  function Reset(items: seq<Item>): (r: seq<Item>)
    ensures |r| == |items|
  {
    seq(|items|, i requires 0 <= i < |items| => items[i].(accesses := 0, updates := 0))
  }

  function Apply(e: Env, op: Op): Env
    requires Admissible(e, op)
  {
    match op
    case AfIncr(i) => e.(items := e.items[i := e.items[i].(accesses := e.items[i].accesses + 1)])
    case AfReset(i) => e.(items := e.items[i := e.items[i].(accesses := 0)])
    case UfIncr(i) => e.(items := e.items[i := e.items[i].(updates := e.items[i].updates + 1)])
    case UfReset(i) => e.(items := e.items[i := e.items[i].(updates := 0)])
    case ResetAll => e.(items := Reset(e.items))
    case NextSet(now, list) => e.(items := Rescheduled(e.items, now, list))
    case Relax(ds) =>
      var items := RelaxFirst(e.items, Target(|e.items|, ds));
      RelaxKeepsPositive(e.items, Target(|e.items|, ds));
      Env(items, Mean(items))
  }

  lemma {:induction false} RelaxKeepsPositive(items: seq<Item>, budget: int)
    requires Positive(items)
    ensures Positive(RelaxFirst(items, budget))
    decreases |items|
  {
    forall i | 0 <= i < |items| ensures RelaxFirst(items, budget)[i].avi > 0.0 {
      RelaxFirstAt(items, budget, i);
    }
  }

  // ---------- what every call keeps ----------

  function Pow(k: nat): real { if k == 0 then 1.0 else STEP * Pow(k - 1) }

  function Cap(beta: real): real { if beta > 1.0 then beta else 1.0 }

  /** The flexible interval is the absolute one times a power of 1.1, between 1 and the cap. */
  ghost predicate ItemOk(x: Item, avi: real, beta: real) {
    && x.avi == avi && x.beta == beta
    && (exists k: nat :: x.fvi == avi * Pow(k))
    && avi <= x.fvi <= Cap(beta) * avi
  }

  ghost predicate EnvOk(e: Env, avi: real, beta: real) {
    && avi > 0.0 && beta > 0.0 && e.items != []
    && (forall i :: 0 <= i < |e.items| ==> ItemOk(e.items[i], avi, beta))
    && Positive(e.items) && e.pExt == Mean(e.items)
  }

  /** A relaxation changes nothing but the flexible interval, by the step or not at all, and
      never to a value outside the absolute interval and its cap. */
  lemma RelaxedStaysInside(x: Item)
    ensures var y := Relaxed(x);
      && y == x.(fvi := y.fvi) && (y.fvi == x.fvi || y.fvi == 1.1 * x.fvi)
      && (y.fvi == x.fvi || x.avi <= y.fvi <= x.beta * x.avi)
  {
  }

  lemma RelaxedBounds(x: Item)
    requires x.avi > 0.0 && x.avi <= x.fvi <= Cap(x.beta) * x.avi
    ensures var y := Relaxed(x);
      && y.avi == x.avi && y.beta == x.beta && (y.fvi == x.fvi || y.fvi == STEP * x.fvi)
      && x.fvi <= y.fvi <= Cap(x.beta) * x.avi
  {
    var limit, cap := x.beta * x.avi, Cap(x.beta) * x.avi;
    assert limit <= cap by { Scale(Cap(x.beta), x.beta, x.avi); }
  }

  lemma RelaxedOk(x: Item, avi: real, beta: real)
    requires avi > 0.0 && ItemOk(x, avi, beta)
    ensures ItemOk(Relaxed(x), avi, beta) && Relaxed(x).fvi >= x.fvi
  {
    var k: nat :| x.fvi == avi * Pow(k);
    var y, next := Relaxed(x), k + 1;
    RelaxedBounds(x);
    if y.fvi == x.fvi {
      assert y.fvi == avi * Pow(k);
    } else {
      NextRung(avi, Pow(k));
      assert y.fvi == avi * Pow(next);
    }
  }

  lemma RelaxKeepsItems(items: seq<Item>, budget: int, avi: real, beta: real)
    requires avi > 0.0 && forall i :: 0 <= i < |items| ==> ItemOk(items[i], avi, beta)
    ensures forall i :: 0 <= i < |items| ==>
      ItemOk(RelaxFirst(items, budget)[i], avi, beta) && RelaxFirst(items, budget)[i].fvi >= items[i].fvi
  {
    forall i | 0 <= i < |items|
      ensures ItemOk(RelaxFirst(items, budget)[i], avi, beta)
      ensures RelaxFirst(items, budget)[i].fvi >= items[i].fvi
    {
      RelaxFirstAt(items, budget, i);
      RelaxedOk(items[i], avi, beta);
    }
  }

  /** Ratios depend on the intervals alone. */
  lemma {:induction false} SameRatios(a: seq<Item>, b: seq<Item>)
    requires |a| == |b| && Positive(a) && Positive(b)
    requires forall i :: 0 <= i < |a| ==> a[i].fvi == b[i].fvi && a[i].avi == b[i].avi
    ensures SumRatios(a) == SumRatios(b)
    decreases |a|
  {
    if a != [] {
      SameRatios(a[..|a| - 1], b[..|b| - 1]);
    }
  }

  predicate SameIntervals(a: seq<Item>, b: seq<Item>) {
    && |a| == |b|
    && forall i :: 0 <= i < |a| ==> a[i].fvi == b[i].fvi && a[i].avi == b[i].avi && a[i].beta == b[i].beta
  }

  lemma OthersKeepIntervals(e: Env, op: Op)
    requires Admissible(e, op) && !op.Relax?
    ensures SameIntervals(e.items, Apply(e, op).items) && Apply(e, op).pExt == e.pExt
  {
  }

  lemma SameIntervalsOk(e: Env, t: Env, avi: real, beta: real)
    requires EnvOk(e, avi, beta) && SameIntervals(e.items, t.items) && t.pExt == e.pExt
    ensures EnvOk(t, avi, beta)
  {
    forall i | 0 <= i < |t.items| ensures ItemOk(t.items[i], avi, beta) {
      var k: nat :| e.items[i].fvi == avi * Pow(k);
      assert t.items[i].fvi == avi * Pow(k);
    }
    SameRatios(e.items, t.items);
  }

  /** Every call keeps every item on its geometric ladder, never shrinks an interval, and
      leaves the extension factor equal to the mean of the ratios. */
  lemma ApplyKeepsOk(e: Env, op: Op, avi: real, beta: real)
    requires EnvOk(e, avi, beta) && Admissible(e, op)
    ensures EnvOk(Apply(e, op), avi, beta) && |Apply(e, op).items| == |e.items|
    ensures forall i :: 0 <= i < |e.items| ==> Apply(e, op).items[i].fvi >= e.items[i].fvi
  {
    if op.Relax? {
      RelaxKeepsItems(e.items, Target(|e.items|, op.ds), avi, beta);
      RelaxKeepsPositive(e.items, Target(|e.items|, op.ds));
    } else {
      OthersKeepIntervals(e, op);
      SameIntervalsOk(e, Apply(e, op), avi, beta);
    }
  }

  predicate ValidCalls(e: Env, ops: seq<Op>)
    decreases |ops|
  {
    ops != [] ==> Admissible(e, ops[0]) && ValidCalls(Apply(e, ops[0]), ops[1..])
  }

  function Run(e: Env, ops: seq<Op>): Env
    requires ValidCalls(e, ops)
    decreases |ops|
  {
    if ops == [] then e else Run(Apply(e, ops[0]), ops[1..])
  }

  lemma {:induction false} RunKeepsOk(e: Env, ops: seq<Op>, avi: real, beta: real)
    requires EnvOk(e, avi, beta) && ValidCalls(e, ops)
    ensures EnvOk(Run(e, ops), avi, beta) && |Run(e, ops).items| == |e.items|
    ensures forall i :: 0 <= i < |e.items| ==> Run(e, ops).items[i].fvi >= e.items[i].fvi
    decreases |ops|
  {
    if ops != [] {
      ApplyKeepsOk(e, ops[0], avi, beta);
      RunKeepsOk(Apply(e, ops[0]), ops[1..], avi, beta);
    }
  }

  function NewItem(i: int, avi: real, beta: real): Item { Item(i, 0, 0, avi, avi, beta, 0) }

  function NewEnv(n: nat, avi: real, beta: real): Env {
    Env(seq(n, i => NewItem(i, avi, beta)), 1.0)
  }

  lemma {:induction false} RatiosBounded(items: seq<Item>, c: real)
    requires Positive(items) && forall i :: 0 <= i < |items| ==> 1.0 <= Ratio(items[i]) <= c
    ensures |items| as real <= SumRatios(items) <= c * |items| as real
    decreases |items|
  {
    if items != [] {
      var n := |items| - 1;
      RatiosBounded(items[..n], c);
      OneMoreRatio(SumRatios(items[..n]), Ratio(items[n]), c, n);
    }
  }

  lemma OneMoreRatio(sum: real, ratio: real, c: real, n: nat)
    requires n as real <= sum <= c * n as real && 1.0 <= ratio <= c
    ensures (n + 1) as real <= sum + ratio <= c * (n + 1) as real
  {
    assert c * (n as real + 1.0) == c * n as real + c;
  }

  lemma RatioBounded(f: real, a: real, c: real)
    requires a > 0.0 && a <= f <= c * a
    ensures 1.0 <= f / a <= c
  {
    var q := f / a;
    assert f == q * a;
    Scale(q, 1.0, a);
    Scale(c, q, a);
  }

  lemma Scale(x: real, y: real, a: real)
    requires a > 0.0
    ensures x < y <==> x * a < y * a
  {
    if x < y {
      assert (y - x) * a > 0.0;
    } else {
      assert (x - y) * a >= 0.0;
    }
  }

  /** The extension factor after any sequence of calls lies between 1 and the cap. */
  lemma ExtensionBounded(n: nat, avi: real, beta: real, ops: seq<Op>)
    requires n > 0 && avi > 0.0 && beta > 0.0 && ValidCalls(NewEnv(n, avi, beta), ops)
    ensures var e := Run(NewEnv(n, avi, beta), ops);
      EnvOk(e, avi, beta) && 1.0 <= e.pExt <= Cap(beta)
  {
    NewEnvOk(n, avi, beta);
    RunKeepsOk(NewEnv(n, avi, beta), ops, avi, beta);
    MeanBounded(Run(NewEnv(n, avi, beta), ops).items, avi, beta);
  }

  lemma MeanBounded(items: seq<Item>, avi: real, beta: real)
    requires avi > 0.0 && items != [] && Positive(items)
    requires forall i :: 0 <= i < |items| ==> ItemOk(items[i], avi, beta)
    ensures 1.0 <= Mean(items) <= Cap(beta)
  {
    forall i | 0 <= i < |items| ensures 1.0 <= Ratio(items[i]) <= Cap(beta) {
      RatioBounded(items[i].fvi, avi, Cap(beta));
    }
    RatiosBounded(items, Cap(beta));
    RatioBounded(SumRatios(items), |items| as real, Cap(beta));
  }

  lemma {:induction false} UnitRatios(items: seq<Item>)
    requires Positive(items) && forall i :: 0 <= i < |items| ==> items[i].fvi == items[i].avi
    ensures SumRatios(items) == |items| as real
    decreases |items|
  {
    if items != [] {
      UnitRatios(items[..|items| - 1]);
      assert Ratio(items[|items| - 1]) == 1.0;
    }
  }

  lemma OverItself(x: real)
    requires x > 0.0
    ensures x / x == 1.0
  {
  }

  lemma NewEnvOk(n: nat, avi: real, beta: real)
    requires n > 0 && avi > 0.0 && beta > 0.0
    ensures EnvOk(NewEnv(n, avi, beta), avi, beta)
  {
    var e := NewEnv(n, avi, beta);
    UnitRatios(e.items);
    Scale(Cap(beta), 1.0, avi);
    assert avi * Pow(0) == avi;
    OverItself(n as real);
  }

  // ---------- saturation ----------

  /** `top` is the largest exponent that the cap admits. */
  predicate TopExponent(top: nat, beta: real) {
    (top == 0 || Pow(top) <= beta) && Pow(top + 1) > beta
  }

  lemma {:induction false} PowOutgrows(k: nat)
    ensures Pow(k) >= 1.0 + k as real / 10.0
  {
    if k > 0 {
      PowOutgrows(k - 1);
    }
  }

  /** Every cap has its largest exponent. */
  lemma SomeTopExponent(beta: real) returns (top: nat)
    ensures TopExponent(top, beta)
  {
    top := if beta > 1.0 then (10.0 * beta).Floor + 1 else 0;
    PowOutgrows(top + 1);
    while top > 0 && Pow(top) > beta
      invariant Pow(top + 1) > beta
    {
      top := top - 1;
    }
  }

  function RelaxedTimes(x: Item, times: nat): Item {
    if times == 0 then x else Relaxed(RelaxedTimes(x, times - 1))
  }

  lemma {:induction false} PowGrows(i: nat, k: nat)
    requires i <= k
    ensures 1.0 <= Pow(i) <= Pow(k)
    decreases k
  {
    if i < k {
      PowGrows(i, k - 1);
    } else if k > 0 {
      PowGrows(k - 1, k - 1);
    }
  }

  /** The guard of the relaxation, in terms of the rung `p` it would move to. */
  lemma GuardIsCap(x: Item, p: real)
    requires x.avi > 0.0 && STEP * x.fvi == p * x.avi && p >= 1.0
    ensures Relaxed(x) == if p <= x.beta then x.(fvi := STEP * x.fvi) else x
  {
    var tmp := STEP * x.fvi;
    Scale(p, 1.0, x.avi);
    Scale(x.beta, p, x.avi);
    assert x.avi <= p * x.avi;
    assert p <= x.beta <==> tmp <= x.beta * x.avi;
  }

  lemma NextRung(a: real, p: real)
    ensures STEP * (a * p) == a * (STEP * p) == (STEP * p) * a
  {
  }

  /** The rung an item is on after `times` visits from rung `k`. */
  function Rung(k: nat, times: nat, top: nat): nat { if k + times <= top then k + times else top }

  /** The item `x` with its interval on rung `k` of its ladder. */
  function OnRung(x: Item, k: nat): Item { x.(fvi := x.avi * Pow(k)) }

  lemma OneRelaxation(x: Item, k: nat, top: nat)
    requires x.avi > 0.0 && k <= top && TopExponent(top, x.beta)
    ensures Relaxed(OnRung(x, k)) == OnRung(x, Rung(k, 1, top))
  {
    var p := Pow(k + 1);
    NextRung(x.avi, Pow(k));
    PowGrows(0, k + 1);
    assert p <= x.beta <==> k < top by {
      if k < top { PowGrows(k + 1, top); }
    }
    GuardIsCap(OnRung(x, k), p);
  }

  /** Each visit moves a cold item one step up its ladder until the largest exponent under the
      cap; from then on visits leave it fixed. */
  lemma {:induction false} RelaxationSaturates(x: Item, k: nat, top: nat, times: nat)
    requires x.avi > 0.0 && k <= top && TopExponent(top, x.beta)
    ensures RelaxedTimes(OnRung(x, k), times) == OnRung(x, Rung(k, times, top))
    decreases times
  {
    if times > 0 {
      RelaxationSaturates(x, k, top, times - 1);
      OneRelaxation(x, Rung(k, times - 1, top), top);
    }
  }

  /** With the configured cap of 2.0 an item relaxes seven times. */
  lemma DefaultCapAdmitsSevenSteps()
    ensures TopExponent(7, 2.0)
  {
    assert Pow(4) == 1.4641;
    assert Pow(7) == STEP * (STEP * (STEP * Pow(4)));
    assert Pow(8) == STEP * Pow(7);
  }

  /** Whether a call relaxes item `i`, saturated or not. */
  predicate Visits(e: Env, op: Op, i: nat)
    requires i < |e.items|
  {
    op.Relax? && Cold(e.items[i]) && ColdAmong(e.items[..i]) < Target(|e.items|, op.ds)
  }

  lemma SizeKept(e: Env, op: Op)
    requires Admissible(e, op)
    ensures |Apply(e, op).items| == |e.items|
  {
  }

  function VisitCount(e: Env, ops: seq<Op>, i: nat): nat
    requires ValidCalls(e, ops) && i < |e.items|
    decreases |ops|
  {
    if ops == [] then 0
    else
      SizeKept(e, ops[0]);
      (if Visits(e, ops[0], i) then 1 else 0) + VisitCount(Apply(e, ops[0]), ops[1..], i)
  }

  /** The item is on rung `k` of the ladder over the given interval and cap. */
  predicate AtRung(x: Item, avi: real, beta: real, k: nat) {
    x.avi == avi && x.beta == beta && x == OnRung(x, k)
  }

  lemma OtherCallsKeepRung(e: Env, op: Op, i: nat, avi: real, beta: real, k: nat)
    requires Admissible(e, op) && i < |e.items| && AtRung(e.items[i], avi, beta, k) && !op.Relax?
    ensures |Apply(e, op).items| == |e.items| && AtRung(Apply(e, op).items[i], avi, beta, k)
  {
    OthersKeepIntervals(e, op);
  }

  lemma RelaxedAtRung(x: Item, avi: real, beta: real, k: nat, top: nat)
    requires avi > 0.0 && AtRung(x, avi, beta, k) && k <= top && TopExponent(top, beta)
    ensures AtRung(Relaxed(x), avi, beta, Rung(k, 1, top))
  {
    OneRelaxation(x, k, top);
  }

  lemma RelaxMovesRung(e: Env, ds: real, i: nat, avi: real, beta: real, k: nat, top: nat)
    requires Admissible(e, Relax(ds)) && i < |e.items| && AtRung(e.items[i], avi, beta, k)
    requires avi > 0.0 && k <= top && TopExponent(top, beta)
    ensures |Apply(e, Relax(ds)).items| == |e.items|
    ensures AtRung(Apply(e, Relax(ds)).items[i], avi, beta, if Visits(e, Relax(ds), i) then Rung(k, 1, top) else k)
  {
    RelaxFirstAt(e.items, Target(|e.items|, ds), i);
    RelaxedAtRung(e.items[i], avi, beta, k, top);
  }

  /** Through any sequence of calls the interval of an item is the absolute interval times 1.1
      to the number of times a relaxation visited it, up to the largest exponent under the cap. */
  lemma {:induction false} LadderOverRuns(e: Env, ops: seq<Op>, i: nat, avi: real, beta: real, k: nat, top: nat)
    requires ValidCalls(e, ops) && i < |e.items| && AtRung(e.items[i], avi, beta, k)
    requires avi > 0.0 && k <= top && TopExponent(top, beta)
    ensures |Run(e, ops).items| == |e.items|
    ensures AtRung(Run(e, ops).items[i], avi, beta, Rung(k, VisitCount(e, ops, i), top))
    decreases |ops|
  {
    if ops != [] {
      var next := if Visits(e, ops[0], i) then Rung(k, 1, top) else k;
      if ops[0].Relax? {
        RelaxMovesRung(e, ops[0].ds, i, avi, beta, k, top);
      } else {
        OtherCallsKeepRung(e, ops[0], i, avi, beta, k);
      }
      LadderOverRuns(Apply(e, ops[0]), ops[1..], i, avi, beta, next, top);
      assert Rung(next, VisitCount(Apply(e, ops[0]), ops[1..], i), top) == Rung(k, VisitCount(e, ops, i), top);
    }
  }

  // ---------- expired items ----------

  /** The indices of the expired items of `lo..hi`, in increasing order. */
  function Expired(items: seq<Item>, lo: nat, hi: nat, now: int): (r: seq<int>)
    requires lo <= hi <= |items|
    ensures |r| <= hi - lo
  {
    if lo == hi then []
    else Expired(items, lo, hi - 1, now) + (if items[hi - 1].next <= now then [hi - 1] else [])
  }

  function FirstOf(list: seq<int>, n: nat): seq<int> { if |list| <= n then list else list[..n] }

  /** The list is increasing and holds exactly the expired indices of the range. */
  predicate Lists(r: seq<int>, items: seq<Item>, lo: nat, hi: nat, now: int)
    requires lo <= hi <= |items|
  {
    && (forall i, k :: 0 <= i < k < |r| ==> r[i] < r[k])
    && (forall i :: i in r ==> lo <= i < hi && items[i].next <= now)
    && (forall i :: lo <= i < hi && items[i].next <= now ==> i in r)
  }

  lemma OneMoreListed(r: seq<int>, items: seq<Item>, lo: nat, hi: nat, now: int)
    requires lo < hi <= |items| && Lists(r, items, lo, hi - 1, now)
    ensures Lists(if items[hi - 1].next <= now then r + [hi - 1] else r, items, lo, hi, now)
  {
    var s := if items[hi - 1].next <= now then r + [hi - 1] else r;
    forall i | lo <= i < hi && items[i].next <= now ensures i in s {
      if i == hi - 1 { assert s[|r|] == i; }
    }
    forall i, k | 0 <= i < k < |s| ensures s[i] < s[k] {
      assert r[i] in r;
    }
  }

  lemma {:induction false} ExpiredIsExact(items: seq<Item>, lo: nat, hi: nat, now: int)
    requires lo <= hi <= |items|
    ensures Lists(Expired(items, lo, hi, now), items, lo, hi, now)
    decreases hi
  {
    if lo < hi {
      ExpiredIsExact(items, lo, hi - 1, now);
      OneMoreListed(Expired(items, lo, hi - 1, now), items, lo, hi, now);
    }
  }

  /** The list is increasing, holds expired indices of the range only, and is either complete or
      full of the first ones: what a full list leaves out comes after everything it holds. */
  predicate ListsFirst(list: seq<int>, size: nat, items: seq<Item>, lo: nat, hi: nat, now: int)
    requires lo <= hi <= |items|
  {
    && |list| <= size
    && (forall i, k :: 0 <= i < k < |list| ==> list[i] < list[k])
    && (forall i :: i in list ==> lo <= i < hi && items[i].next <= now)
    && (forall i :: lo <= i < hi && items[i].next <= now && i !in list ==> |list| == size && Last(list) < i)
  }

  function Last(list: seq<int>): int { if list == [] then -1 else list[|list| - 1] }

  lemma FirstOfMisses(all: seq<int>, n: nat, item: int)
    requires forall i, k :: 0 <= i < k < |all| ==> all[i] < all[k]
    requires item in all && item !in FirstOf(all, n) && item >= 0
    ensures |FirstOf(all, n)| == n && Last(FirstOf(all, n)) < item
  {
    var list := FirstOf(all, n);
    var m :| 0 <= m < |all| && all[m] == item;
    assert forall k :: 0 <= k < |list| ==> list[k] in list && list[k] == all[k];
  }

  lemma FirstOfLists(all: seq<int>, size: nat, items: seq<Item>, lo: nat, hi: nat, now: int)
    requires lo <= hi <= |items| && Lists(all, items, lo, hi, now)
    ensures ListsFirst(FirstOf(all, size), size, items, lo, hi, now)
  {
    var list := FirstOf(all, size);
    assert forall i :: i in list ==> i in all;
    forall i | lo <= i < hi && items[i].next <= now && i !in list
      ensures |list| == size && Last(list) < i
    {
      FirstOfMisses(all, size, i);
    }
  }

  lemma {:induction false} ExpiredGrows(items: seq<Item>, lo: nat, mid: nat, hi: nat, now: int)
    requires lo <= mid <= hi <= |items|
    ensures Expired(items, lo, mid, now) <= Expired(items, lo, hi, now)
    decreases hi
  {
    if mid < hi {
      ExpiredGrows(items, lo, mid, hi - 1, now);
    }
  }

  // ---------- the environment object ----------

  class AupEnv {
    const data: array<Item>
    var pExt: real

    function AsEnv(): Env
      reads this, data
    {
      Env(data[..], pExt)
    }

    constructor (n: nat, avi: real, beta: real)
      requires n > 0 && beta > 0.0 && avi > 0.0
      ensures fresh(data) && AsEnv() == NewEnv(n, avi, beta)
    {
      data := new Item[n](i => NewItem(0, avi, beta));
      pExt := 1.0;
      new;
      for i := 0 to n
        invariant pExt == 1.0 && forall k :: 0 <= k < i ==> data[k] == NewItem(k, avi, beta)
      {
        data[i] := NewItem(i, avi, beta);
      }
      assert data[..] == NewEnv(n, avi, beta).items;
    }

    method AccessIncr(i: nat)
      requires i < data.Length
      modifies data
      ensures AsEnv() == Apply(old(AsEnv()), AfIncr(i))
    {
      data[i] := data[i].(accesses := data[i].accesses + 1);
    }

    method AccessReset(i: nat)
      requires i < data.Length
      modifies data
      ensures AsEnv() == Apply(old(AsEnv()), AfReset(i))
    {
      data[i] := data[i].(accesses := 0);
    }

    method UpdateIncr(i: nat)
      requires i < data.Length
      modifies data
      ensures AsEnv() == Apply(old(AsEnv()), UfIncr(i))
    {
      data[i] := data[i].(updates := data[i].updates + 1);
    }

    method UpdateReset(i: nat)
      requires i < data.Length
      modifies data
      ensures AsEnv() == Apply(old(AsEnv()), UfReset(i))
    {
      data[i] := data[i].(updates := 0);
    }

    method ResetFrequencies()
      modifies data
      ensures AsEnv() == Apply(old(AsEnv()), ResetAll)
    {
      ghost var before := data[..];
      for i := 0 to data.Length
        invariant forall k :: 0 <= k < i ==> data[k] == before[k].(accesses := 0, updates := 0)
        invariant forall k :: i <= k < data.Length ==> data[k] == before[k]
      {
        UpdateReset(i);
        AccessReset(i);
      }
      assert data[..] == Reset(before);
    }

    /** Fills `out` with the first expired indices of the range, then -1s. */
    method GetExpired(first: nat, count: nat, size: nat, out: array<int>, now: int) returns (found: nat)
      requires first + count <= data.Length && size <= out.Length
      modifies out
      ensures var all := Expired(data[..], first, first + count, now);
        && found == |FirstOf(all, size)|
        && out[..found] == FirstOf(all, size)
        && (forall k :: found <= k < size ==> out[k] == -1)
        && (forall k :: size <= k < out.Length ==> out[k] == old(out[k]))
    {
      for i := 0 to size
        invariant forall k :: 0 <= k < i ==> out[k] == -1
        invariant forall k :: size <= k < out.Length ==> out[k] == old(out[k])
      {
        out[i] := -1;
      }
      found := 0;
      var i := first;
      while i < first + count && found < size
        invariant first <= i <= first + count && found <= size
        invariant out[..found] == Expired(data[..], first, i, now)
        invariant forall k :: found <= k < size ==> out[k] == -1
        invariant forall k :: size <= k < out.Length ==> out[k] == old(out[k])
      {
        if data[i].next <= now {
          out[found] := i;
          found := found + 1;
        }
        i := i + 1;
      }
      ExpiredGrows(data[..], first, i, first + count, now);
    }

    /** Reschedules every listed item at the present time; -1s are skipped. */
    method SetNextUpdate(size: nat, list: array<int>, now: int)
      requires size <= list.Length && forall k :: 0 <= k < size ==> list[k] < data.Length
      modifies data
      ensures AsEnv() == Apply(old(AsEnv()), NextSet(now, list[..size]))
    {
      ghost var before := data[..];
      for i := 0 to size
        invariant forall k :: 0 <= k < data.Length ==>
          data[k] == if k in list[..i] then before[k].(next := NextUpdate(now, before[k])) else before[k]
      {
        assert list[..i + 1] == list[..i] + [list[i]];
        var item := list[i];
        if item >= 0 {
          data[item] := data[item].(next := NextUpdate(now, data[item]));
        }
      }
      assert data[..] == Rescheduled(before, now, list[..size]);
    }

    /** The first loop of the relaxation: visits cold items until the budget is used up. */
    method RelaxCold(budget: int)
      modifies data
      ensures data[..] == RelaxFirst(old(data[..]), budget)
    {
      ghost var before := data[..];
      var n, left, i := data.Length, budget, 0;
      while i < n && left > 0
        invariant 0 <= i <= n
        invariant left > 0 ==> left == budget - ColdAmong(before[..i])
        invariant left <= 0 ==> budget <= ColdAmong(before[..i])
        invariant forall k :: 0 <= k < i ==> data[k] == RelaxFirst(before, budget)[k]
        invariant forall k :: i <= k < n ==> data[k] == before[k]
      {
        RelaxFirstAt(before, budget, i);
        ColdCount(before, i);
        if Cold(data[i]) {
          data[i] := Relaxed(data[i]);
          left := left - 1;
        }
        i := i + 1;
      }
      if i < n {
        RestStays(before, budget, i);
      }
      assert data[..] == RelaxFirst(before, budget);
    }

    /** Relaxes the first cold items and recomputes the extension factor. */
    method RelaxIntervals(ds: real)
      requires data.Length > 0 && Positive(data[..])
      modifies this, data
      ensures AsEnv() == Apply(old(AsEnv()), Relax(ds))
    {
      var n := data.Length;
      RelaxKeepsPositive(data[..], Target(n, ds));
      RelaxCold(Target(n, ds));
      var sum := 0.0;
      for k := 0 to n
        invariant Positive(data[..]) && sum == SumRatios(data[..k])
      {
        assert data[..k + 1][..k] == data[..k];
        sum := sum + data[k].fvi / data[k].avi;
      }
      assert data[..n] == data[..];
      pExt := sum / n as real;
    }
  }

  /** Once the budget is used up the remaining items stay as they are. */
  lemma RestStays(items: seq<Item>, target: int, i: nat)
    requires i <= |items| && target <= ColdAmong(items[..i])
    ensures forall k :: i <= k < |items| ==> RelaxFirst(items, target)[k] == items[k]
  {
    forall k | i <= k < |items| ensures RelaxFirst(items, target)[k] == items[k] {
      RelaxFirstAt(items, target, k);
      ColdGrows(items, i, k);
    }
  }

  lemma {:induction false} ColdCount(items: seq<Item>, i: nat)
    requires i < |items|
    ensures ColdAmong(items[..i + 1]) == ColdAmong(items[..i]) + if Cold(items[i]) then 1 else 0
    decreases i
  {
    if i > 0 {
      ColdCount(items[1..], i - 1);
      assert items[..i + 1][1..] == items[1..][..i] && items[..i][1..] == items[1..][..i - 1];
    }
  }

  lemma {:induction false} ColdGrows(items: seq<Item>, i: nat, k: nat)
    requires i <= k <= |items|
    ensures ColdAmong(items[..i]) <= ColdAmong(items[..k])
    decreases k
  {
    if i < k {
      ColdGrows(items, i, k - 1);
      ColdCount(items, k - 1);
    }
  }
}
