/** The overload controller: degree of timing violation, its exponential smoothing, and the
    admission delay it drives. */

module Controller {

  function AverageServiceDelay(cumulativeDelay: int, samples: int): real {
    if samples > 0 then cumulativeDelay as real / samples as real else 0.0
  }

  function OverloadDegree(average: real, bound: real): real {
    if bound > 0.0 && average > bound then (average - bound) / bound else 0.0
  }

  function SmoothedDegree(current: real, previous: real, alpha: real): real {
    alpha * current + (1.0 - alpha) * previous
  }

  const THRESHOLD := 0.001

  function NextSleep(sleep: int, smoothed: real): int {
    if smoothed > THRESHOLD then sleep + 1
    else if sleep > 1 then sleep - 1
    else sleep
  }

  /** A sample is a number of user transactions and their total duration. */
  datatype Load = Load(duration: int, count: int)

  datatype Control = Control(smoothed: real, sleep: int)

  function DegreeOf(load: Load, bound: real): real {
    OverloadDegree(AverageServiceDelay(load.duration, load.count), bound)
  }

  /** One call of `performanceMonitor`. */
  function Monitor(c: Control, load: Load, bound: real, alpha: real): Control {
    var smoothed := SmoothedDegree(DegreeOf(load, bound), c.smoothed, alpha);
    Control(smoothed, NextSleep(c.sleep, smoothed))
  }

  /** The controller's fields in the server context. */
  class Context {
    const desiredDelay: int
    const alpha: real
    var averageServiceDelay: real
    var degree: real
    var smoothed: real
    var sleep: int

    constructor (desiredDelay: int, alpha: real)
      ensures this.desiredDelay == desiredDelay && this.alpha == alpha
      ensures smoothed == 0.0 && sleep == 0
    {
      this.desiredDelay, this.alpha := desiredDelay, alpha;
      averageServiceDelay, degree, smoothed, sleep := 0.0, 0.0, 0.0, 0;
    }

    method PerformanceMonitor(load: Load)
      modifies this
      ensures Control(smoothed, sleep)
           == Monitor(Control(old(smoothed), old(sleep)), load, desiredDelay as real, alpha)
      ensures averageServiceDelay == AverageServiceDelay(load.duration, load.count)
      ensures degree == OverloadDegree(averageServiceDelay, desiredDelay as real)
    {
      averageServiceDelay := AverageServiceDelay(load.duration, load.count);
      degree := OverloadDegree(averageServiceDelay, desiredDelay as real);
      smoothed := SmoothedDegree(degree, smoothed, alpha);
      if smoothed > THRESHOLD {
        sleep := sleep + 1;
      } else if sleep > 1 {
        sleep := sleep - 1;
      }
    }
  }

  function Run(c: Control, loads: seq<Load>, bound: real, alpha: real): Control
    decreases |loads|
  {
    if loads == [] then c else Run(Monitor(c, loads[0], bound, alpha), loads[1..], bound, alpha)
  }

  // ---------- range of the smoothed degree ----------

  /** The average is the total over the number, and 0 without transactions. */
  lemma AverageIs(duration: int, count: int)
    ensures count > 0 ==> AverageServiceDelay(duration, count) * count as real == duration as real
    ensures count <= 0 ==> AverageServiceDelay(duration, count) == 0.0
  {
  }

  /** The degree is positive exactly when the average exceeds a positive bound. */
  lemma DegreeIsExcess(average: real, bound: real)
    ensures OverloadDegree(average, bound) >= 0.0
    ensures bound <= 0.0 ==> OverloadDegree(average, bound) == 0.0
    ensures bound > 0.0 ==> (OverloadDegree(average, bound) > 0.0 <==> average > bound)
    ensures bound > 0.0 && average > bound ==> bound * (1.0 + OverloadDegree(average, bound)) == average
  {
    if bound > 0.0 && average > bound {
      var d := (average - bound) / bound;
      assert d * bound == average - bound;
      if d <= 0.0 { NoNegativeFactor(d, bound); }
    }
  }

  lemma NoNegativeFactor(d: real, b: real)
    requires b > 0.0
    ensures d <= 0.0 ==> d * b <= 0.0
  {
  }

  lemma Widen(c: real, a: real, b: real)
    requires c >= 0.0 && a <= b
    ensures c * a <= c * b
  {
    assert c * (b - a) >= 0.0;
  }

  lemma NoNegativeProduct(c: real, x: real)
    requires c >= 0.0 && x >= 0.0
    ensures c * x >= 0.0
  {
  }

  lemma Mix(a: real, b: real, c: real, d: real, top: real)
    requires 0.0 <= c && 0.0 <= d && c + d == 1.0 && 0.0 <= a <= top && 0.0 <= b <= top
    ensures 0.0 <= c * a + d * b <= top
  {
    NoNegativeProduct(c, a);
    NoNegativeProduct(d, b);
    Widen(c, a, top);
    Widen(d, b, top);
    var p, q, r, s := c * a, d * b, c * top, d * top;
    assert p >= 0.0;
    assert q >= 0.0;
    assert p <= r;
    assert q <= s;
    assert d == 1.0 - c;
    assert s == (1.0 - c) * top;
    assert s == top - r;
    assert p + q <= top;
  }

  lemma Between(a: real, b: real, alpha: real, top: real)
    requires 0.0 <= alpha <= 1.0 && 0.0 <= a <= top && 0.0 <= b <= top
    ensures 0.0 <= SmoothedDegree(a, b, alpha) <= top
  {
    Mix(a, b, alpha, 1.0 - alpha, top);
  }

  /** The smoothed degree stays between zero and the largest degree seen. */
  lemma {:induction false} SmoothedStaysInRange(c: Control, loads: seq<Load>, bound: real, alpha: real, top: real)
    requires 0.0 <= alpha <= 1.0 && 0.0 <= c.smoothed <= top
    requires forall i :: 0 <= i < |loads| ==> DegreeOf(loads[i], bound) <= top
    ensures 0.0 <= Run(c, loads, bound, alpha).smoothed <= top
    decreases |loads|
  {
    if loads != [] {
      DegreeIsExcess(AverageServiceDelay(loads[0].duration, loads[0].count), bound);
      Between(DegreeOf(loads[0], bound), c.smoothed, alpha, top);
      SmoothedStaysInRange(Monitor(c, loads[0], bound, alpha), loads[1..], bound, alpha, top);
    }
  }

  /** The admission delay is never negative, moves by at most one per sample, and once at
      least one never drops below one. */
  lemma {:induction false} SleepStaysInRange(c: Control, loads: seq<Load>, bound: real, alpha: real)
    requires c.sleep >= 0
    ensures var t := Run(c, loads, bound, alpha);
      && 0 <= t.sleep && c.sleep - |loads| <= t.sleep <= c.sleep + |loads|
      && (c.sleep >= 1 ==> t.sleep >= 1)
    decreases |loads|
  {
    if loads != [] {
      SleepStaysInRange(Monitor(c, loads[0], bound, alpha), loads[1..], bound, alpha);
    }
  }

  // ---------- decay ----------

  predicate Calm(loads: seq<Load>, bound: real) {
    forall i :: 0 <= i < |loads| ==> DegreeOf(loads[i], bound) == 0.0
  }

  function Decay(alpha: real, n: nat): real {
    if n == 0 then 1.0 else (1.0 - alpha) * Decay(alpha, n - 1)
  }

  /** A degree of `x` after `n` calm samples. */
  function Faded(x: real, alpha: real, n: nat): real { Decay(alpha, n) * x }

  lemma Reorder(a: real, d: real, x: real)
    ensures d * (a * x) == (a * d) * x == a * (d * x)
  {
  }

  /** After the last overloaded sample the smoothed degree decays geometrically. */
  lemma {:induction false} CalmDecays(c: Control, loads: seq<Load>, bound: real, alpha: real)
    requires Calm(loads, bound)
    ensures Run(c, loads, bound, alpha).smoothed == Faded(c.smoothed, alpha, |loads|)
    decreases |loads|
  {
    if loads != [] {
      var t := Monitor(c, loads[0], bound, alpha);
      assert t.smoothed == (1.0 - alpha) * c.smoothed;
      CalmDecays(t, loads[1..], bound, alpha);
      Reorder(1.0 - alpha, Decay(alpha, |loads| - 1), c.smoothed);
    }
  }

  /** Bernoulli's inequality turned into a bound on the decay. */
  lemma {:induction false} DecayBound(alpha: real, n: nat)
    requires 0.0 < alpha <= 1.0
    ensures 0.0 <= Decay(alpha, n) && Decay(alpha, n) * (1.0 + n as real * alpha) <= 1.0
  {
    if n > 0 {
      DecayBound(alpha, n - 1);
      var d, m := Decay(alpha, n - 1), 1.0 + (n - 1) as real * alpha;
      OneMoreStep(alpha, d, m);
      assert 1.0 + n as real * alpha == m + alpha;
    }
  }

  lemma OneMoreStep(alpha: real, d: real, m: real)
    requires 0.0 < alpha <= 1.0 && d >= 0.0 && m >= 1.0 && d * m <= 1.0
    ensures 0.0 <= (1.0 - alpha) * d
    ensures ((1.0 - alpha) * d) * (m + alpha) <= 1.0
  {
    assert (1.0 - alpha) * (m + alpha) == m - alpha * (m - 1.0) - alpha * alpha;
    assert alpha * (m - 1.0) >= 0.0 && alpha * alpha >= 0.0;
    var f := (1.0 - alpha) * (m + alpha);
    assert f <= m;
    assert ((1.0 - alpha) * d) * (m + alpha) == d * f;
    assert d * f <= d * m;
  }

  /** Enough calm samples for a smoothed degree of at most `top` to fall to the threshold. */
  function SettlingTime(top: real, alpha: real): nat
    requires 0.0 < alpha && 0.0 <= top
  {
    var x := top / (THRESHOLD * alpha);
    if x <= 0.0 then 0 else x.Floor + 1
  }

  /** A factor that shrinks as fast as `grown` grows brings `x` to the threshold. */
  lemma ShrinksTo(d: real, grown: real, x: real)
    requires d >= 0.0 && d * grown <= 1.0 && 0.0 <= x <= THRESHOLD * grown
    ensures 0.0 <= d * x <= THRESHOLD
  {
    NoNegativeProduct(d, x);
    var most := THRESHOLD * grown;
    Widen(d, x, most);
    assert d * most == THRESHOLD * (d * grown);
  }

  lemma EnoughSamples(top: real, alpha: real, n: nat)
    requires 0.0 < alpha <= 1.0 && 0.0 <= top
    ensures n >= SettlingTime(top, alpha) ==> top <= THRESHOLD * (1.0 + n as real * alpha)
  {
    if n >= SettlingTime(top, alpha) {
      var step := THRESHOLD * alpha;
      var q := top / step;
      assert q * step == top;
      assert q <= n as real;
      Widen(step, q, n as real);
      assert step * n as real == THRESHOLD * (n as real * alpha);
    }
  }

  lemma SettlesBelowThreshold(alpha: real, n: nat, x: real)
    requires 0.0 < alpha <= 1.0 && 0.0 <= x
    ensures n >= SettlingTime(x, alpha) ==> 0.0 <= Faded(x, alpha, n) <= THRESHOLD
  {
    if n >= SettlingTime(x, alpha) {
      DecayBound(alpha, n);
      EnoughSamples(x, alpha, n);
      ShrinksTo(Decay(alpha, n), 1.0 + n as real * alpha, x);
    }
  }

  /** Once the smoothed degree is at or below the threshold and stays there, the delay falls by
      one per sample until it is one; a delay of zero or one stays. */
  lemma {:induction false} SleepFalls(c: Control, loads: seq<Load>, bound: real, alpha: real)
    requires 0.0 < alpha <= 1.0 && 0.0 <= c.smoothed <= 0.001 && Calm(loads, bound) && c.sleep >= 0
    ensures Run(c, loads, bound, alpha).sleep ==
      if c.sleep <= 1 then c.sleep else if c.sleep - |loads| > 1 then c.sleep - |loads| else 1
    decreases |loads|
  {
    if loads != [] {
      var t := Monitor(c, loads[0], bound, alpha);
      Between(0.0, c.smoothed, alpha, THRESHOLD);
      SleepFalls(t, loads[1..], bound, alpha);
    }
  }

  lemma {:induction false} RunsCompose(c: Control, a: seq<Load>, b: seq<Load>, bound: real, alpha: real)
    ensures Run(c, a + b, bound, alpha) == Run(Run(c, a, bound, alpha), b, bound, alpha)
    decreases |a|
  {
    if a == [] {
      assert a + b == b;
    } else {
      assert (a + b)[1..] == a[1..] + b;
      RunsCompose(Monitor(c, a[0], bound, alpha), a[1..], b, bound, alpha);
    }
  }

  lemma CalmRunSettles(c: Control, loads: seq<Load>, bound: real, alpha: real)
    requires 0.0 < alpha <= 1.0 && c.smoothed >= 0.0 && Calm(loads, bound)
    ensures |loads| >= SettlingTime(c.smoothed, alpha) ==>
      0.0 <= Run(c, loads, bound, alpha).smoothed <= THRESHOLD
  {
    CalmDecays(c, loads, bound, alpha);
    SettlesBelowThreshold(alpha, |loads|, c.smoothed);
  }

  /** After the overload ends the delay is back to at most one millisecond within a number of
      samples that can be computed from the state at that time. */
  lemma DelayRecovers(c: Control, loads: seq<Load>, bound: real, alpha: real)
    requires 0.0 < alpha <= 1.0 && c.smoothed >= 0.0 && c.sleep >= 0 && Calm(loads, bound)
    ensures |loads| >= c.sleep + 2 * SettlingTime(c.smoothed, alpha) ==>
      Run(c, loads, bound, alpha).sleep <= 1
  {
    var n := SettlingTime(c.smoothed, alpha);
    if |loads| >= c.sleep + 2 * n {
      var early, late := loads[..n], loads[n..];
      assert loads == early + late;
      RunsCompose(c, early, late, bound, alpha);
      CalmRunSettles(c, early, bound, alpha);
      SleepStaysInRange(c, early, bound, alpha);
      SleepFalls(Run(c, early, bound, alpha), late, bound, alpha);
    }
  }

  // ---------- reaction to overload ----------

  /** The degrees of the samples, each with its weight: alpha times `1 - alpha` to the number of
      later samples. */
  function Weighted(loads: seq<Load>, bound: real, alpha: real): real {
    if loads == [] then 0.0
    else Faded(alpha * DegreeOf(loads[0], bound), alpha, |loads| - 1) + Weighted(loads[1..], bound, alpha)
  }

  lemma FadedAdds(x: real, y: real, alpha: real, n: nat)
    ensures Faded(x + y, alpha, n) == Faded(x, alpha, n) + Faded(y, alpha, n)
  {
  }

  lemma FadedOnce(x: real, alpha: real, n: nat)
    requires n > 0
    ensures Faded((1.0 - alpha) * x, alpha, n - 1) == Faded(x, alpha, n)
  {
    Reorder(1.0 - alpha, Decay(alpha, n - 1), x);
  }

  /** The smoothed degree is the weighted sum of all degrees seen and of where it started. */
  lemma {:induction false} SmoothedIsWeighted(c: Control, loads: seq<Load>, bound: real, alpha: real)
    ensures Run(c, loads, bound, alpha).smoothed ==
            Faded(c.smoothed, alpha, |loads|) + Weighted(loads, bound, alpha)
    decreases |loads|
  {
    if loads != [] {
      var t := Monitor(c, loads[0], bound, alpha);
      SmoothedIsWeighted(t, loads[1..], bound, alpha);
      OneSampleFades(DegreeOf(loads[0], bound), c.smoothed, alpha, |loads|);
      assert t.smoothed == SmoothedDegree(DegreeOf(loads[0], bound), c.smoothed, alpha);
    }
  }

  lemma OneSampleFades(degree: real, s: real, alpha: real, n: nat)
    requires n > 0
    ensures Faded(SmoothedDegree(degree, s, alpha), alpha, n - 1) ==
            Faded(s, alpha, n) + Faded(alpha * degree, alpha, n - 1)
  {
    FadedAdds(alpha * degree, (1.0 - alpha) * s, alpha, n - 1);
    FadedOnce(s, alpha, n);
  }

  /** In every period the average delay exceeds the bound by more than `d` times the bound. */
  predicate Overloaded(loads: seq<Load>, bound: real, d: real) {
    forall i :: 0 <= i < |loads| ==> Exceeds(loads[i], bound, d)
  }

  predicate Exceeds(load: Load, bound: real, d: real) {
    load.count > 0 && load.duration as real > (1.0 + d) * bound * load.count as real
  }

  lemma Cancel(x: real, y: real, c: real)
    requires c > 0.0 && x * c > y * c
    ensures x > y
  {
    if x <= y { Widen(c, x, y); }
  }

  lemma ExceedsMeansDegree(load: Load, bound: real, d: real)
    requires bound > 0.0 && d >= 0.0 && Exceeds(load, bound, d)
    ensures DegreeOf(load, bound) > d
  {
    var average := AverageServiceDelay(load.duration, load.count);
    AverageIs(load.duration, load.count);
    Cancel(average, (1.0 + d) * bound, load.count as real);
    NoNegativeProduct(d, bound);
    assert (1.0 + d) * bound == bound + d * bound;
    DegreeIsExcess(average, bound);
    Cancel(1.0 + OverloadDegree(average, bound), 1.0 + d, bound);
  }

  /** Each overloaded sample closes at least alpha times the gap to `d`. */
  lemma GapCloses(degree: real, s: real, alpha: real, d: real)
    requires 0.0 < alpha <= 1.0 && degree >= d
    ensures d - SmoothedDegree(degree, s, alpha) <= (1.0 - alpha) * (d - s)
  {
    Widen(alpha, d, degree);
    assert (1.0 - alpha) * (d - s) == d - alpha * d - (1.0 - alpha) * s;
  }

  lemma {:induction false} SmoothedApproaches(c: Control, loads: seq<Load>, bound: real, alpha: real, d: real)
    requires 0.0 < alpha <= 1.0 && bound > 0.0 && d >= 0.0 && Overloaded(loads, bound, d)
    ensures d - Run(c, loads, bound, alpha).smoothed <= Faded(d - c.smoothed, alpha, |loads|)
    decreases |loads|
  {
    if loads != [] {
      var t, degree := Monitor(c, loads[0], bound, alpha), DegreeOf(loads[0], bound);
      ExceedsMeansDegree(loads[0], bound, d);
      SmoothedApproaches(t, loads[1..], bound, alpha, d);
      assert t.smoothed == SmoothedDegree(degree, c.smoothed, alpha);
      GapFades(degree, c.smoothed, alpha, d, |loads|);
    }
  }

  lemma GapFades(degree: real, s: real, alpha: real, d: real, n: nat)
    requires 0.0 < alpha <= 1.0 && degree >= d && n > 0
    ensures Faded(d - SmoothedDegree(degree, s, alpha), alpha, n - 1) <= Faded(d - s, alpha, n)
  {
    GapCloses(degree, s, alpha, d);
    DecayBound(alpha, n - 1);
    Widen(Decay(alpha, n - 1), d - SmoothedDegree(degree, s, alpha), (1.0 - alpha) * (d - s));
    FadedOnce(d - s, alpha, n);
  }

  /** Enough samples with a degree above `d` for the smoothed degree to pass the threshold. */
  function ReactionTime(d: real, alpha: real): nat
    requires 0.0 < alpha && d > THRESHOLD
  {
    var x := d / ((d - THRESHOLD) * alpha);
    if x <= 0.0 then 0 else x.Floor + 1
  }

  lemma Quotient(x: real, y: real)
    requires y > 0.0
    ensures (x / y) * y == x
  {
  }

  lemma PositiveProduct(x: real, y: real)
    requires x > 0.0 && y > 0.0
    ensures x * y > 0.0
  {
  }

  lemma ReactionIsEnough(d: real, alpha: real, n: nat)
    requires 0.0 < alpha <= 1.0 && d > THRESHOLD
    ensures n >= ReactionTime(d, alpha) ==> d < (d - THRESHOLD) * (1.0 + n as real * alpha)
  {
    if n >= ReactionTime(d, alpha) {
      var gap, samples := d - THRESHOLD, n as real;
      var step, grown := gap * alpha, samples * alpha;
      PositiveProduct(gap, alpha);
      var q := d / step;
      Quotient(d, step);
      assert step == (d - THRESHOLD) * alpha;
      assert ReactionTime(d, alpha) == if q <= 0.0 then 0 else q.Floor + 1;
      assert q <= samples;
      Widen(step, q, samples);
      Reorder(samples, gap, alpha);
      assert step * samples == gap * grown;
      assert gap * (1.0 + grown) == gap + gap * grown;
    }
  }

  lemma ShrinksBelow(decay: real, grown: real, d: real, gap: real)
    requires decay >= 0.0 && decay * grown <= 1.0 && gap > 0.0 && d < gap * grown
    ensures decay * d < gap
  {
    if decay > 0.0 {
      assert decay * (gap * grown - d) > 0.0;
      assert decay * (gap * grown) == gap * (decay * grown);
      Widen(gap, decay * grown, 1.0);
    }
  }

  /** After enough overloaded samples the smoothed degree is above the threshold. */
  lemma OverloadIsSeen(c: Control, loads: seq<Load>, bound: real, alpha: real, d: real)
    requires 0.0 < alpha <= 1.0 && bound > 0.0 && d > THRESHOLD && c.smoothed >= 0.0
    requires Overloaded(loads, bound, d)
    ensures |loads| >= ReactionTime(d, alpha) ==> Run(c, loads, bound, alpha).smoothed > THRESHOLD
  {
    var n := |loads|;
    if n >= ReactionTime(d, alpha) {
      SmoothedApproaches(c, loads, bound, alpha, d);
      ReactionIsEnough(d, alpha, n);
      GapIsSmall(c.smoothed, alpha, d, n);
    }
  }

  lemma GapIsSmall(s: real, alpha: real, d: real, n: nat)
    requires 0.0 < alpha <= 1.0 && d > THRESHOLD && s >= 0.0
    requires d < (d - THRESHOLD) * (1.0 + n as real * alpha)
    ensures Faded(d - s, alpha, n) < d - THRESHOLD
  {
    DecayBound(alpha, n);
    GapShrinks(Decay(alpha, n), 1.0 + n as real * alpha, d, s, d - THRESHOLD);
  }

  lemma GapShrinks(decay: real, grown: real, d: real, s: real, gap: real)
    requires decay >= 0.0 && decay * grown <= 1.0 && gap > 0.0 && d < gap * grown && s >= 0.0
    ensures decay * (d - s) < gap
  {
    ShrinksBelow(decay, grown, d, gap);
    Widen(decay, d - s, d);
  }

  lemma StaysAbove(degree: real, s: real, alpha: real)
    requires 0.0 < alpha <= 1.0 && degree > THRESHOLD && s > THRESHOLD
    ensures SmoothedDegree(degree, s, alpha) > THRESHOLD
  {
    var least := if degree < s then degree else s;
    Widen(alpha, least, degree);
    Widen(1.0 - alpha, least, s);
    assert alpha * least + (1.0 - alpha) * least == least;
  }

  /** While the overload is seen and lasts, the delay grows by one per sample. */
  lemma {:induction false} SleepRises(c: Control, loads: seq<Load>, bound: real, alpha: real, d: real)
    requires 0.0 < alpha <= 1.0 && bound > 0.0 && d > THRESHOLD && c.smoothed > THRESHOLD
    requires Overloaded(loads, bound, d)
    ensures var t := Run(c, loads, bound, alpha);
      t.smoothed > THRESHOLD && t.sleep == c.sleep + |loads|
    decreases |loads|
  {
    if loads != [] {
      ExceedsMeansDegree(loads[0], bound, d);
      StaysAbove(DegreeOf(loads[0], bound), c.smoothed, alpha);
      SleepRises(Monitor(c, loads[0], bound, alpha), loads[1..], bound, alpha, d);
    }
  }

  /** The counterpart of recovery: if in every period the transactions took on average more than
      `1 + d` times the bound, the controller notices within a number of samples that can be
      computed, and from then on the delay grows by one millisecond per sample. */
  lemma DelayBuildsUp(c: Control, loads: seq<Load>, bound: real, alpha: real, d: real)
    requires 0.0 < alpha <= 1.0 && bound > 0.0 && d > 0.001 && c.smoothed >= 0.0 && c.sleep >= 0
    requires Overloaded(loads, bound, d)
    ensures var t := Run(c, loads, bound, alpha); var n := ReactionTime(d, alpha);
      |loads| >= n ==>
        && t.smoothed > THRESHOLD
        && t.sleep == Run(c, loads[..n], bound, alpha).sleep + |loads| - n >= |loads| - n
  {
    var n := ReactionTime(d, alpha);
    if |loads| >= n {
      var early, late := loads[..n], loads[n..];
      assert loads == early + late;
      RunsCompose(c, early, late, bound, alpha);
      OverloadIsSeen(c, early, bound, alpha, d);
      SleepStaysInRange(c, early, bound, alpha);
      SleepRises(Run(c, early, bound, alpha), late, bound, alpha, d);
    }
  }
}
