/** risk/breakers.py: two latching circuit breakers, each specified by a statement about the whole
    history of readings since the last reset. */
module Breakers {
  import opened Sums

  function Abs(x: real): real {
    if x < 0.0 then -x else x
  }

  /** The readings that still matter: everything after the last reset. */
  datatype Reading = Update(x: real) | Reset

  function SinceReset(h: seq<Reading>): seq<real> {
    if h == [] then []
    else
      match h[|h| - 1]
      case Reset => []
      case Update(x) => SinceReset(h[..|h| - 1]) + [x]
  }

  // ----- Daily loss -----

  datatype DailyState = DailyState(cumulative: real, tripped: bool, lastValue: real) {
    function UpdatePnl(threshold: real, delta: real): DailyState {
      var c := cumulative + delta;
      if c <= -Abs(threshold) then DailyState(c, true, c) else DailyState(c, tripped, lastValue)
    }
  }

  const FRESH_DAILY := DailyState(0.0, false, 0.0)

  function DailyAfter(threshold: real, h: seq<Reading>): DailyState {
    if h == [] then FRESH_DAILY
    else
      match h[|h| - 1]
      case Reset => FRESH_DAILY
      case Update(x) => DailyAfter(threshold, h[..|h| - 1]).UpdatePnl(threshold, x)
  }

  /** The cumulative loss reached the threshold after the first `k` updates since the reset. */
  predicate LossAt(threshold: real, xs: seq<real>, k: nat)
    requires k <= |xs|
  {
    Sum(xs[..k]) <= -Abs(threshold)
  }

  /** Some nonempty prefix of the updates sums to minus the threshold or below. */
  predicate SomeLoss(threshold: real, xs: seq<real>) {
    exists k: nat :: 1 <= k <= |xs| && LossAt(threshold, xs, k)
  }

  lemma SomeLossExtends(threshold: real, ys: seq<real>, x: real)
    ensures SomeLoss(threshold, ys + [x]) <==> SomeLoss(threshold, ys) || Sum(ys + [x]) <= -Abs(threshold)
  {
    var xs := ys + [x];
    assert xs[..|xs|] == xs;
    forall k: nat | k <= |ys| ensures LossAt(threshold, ys, k) == LossAt(threshold, xs, k) {
      assert ys[..k] == xs[..k];
    }
    if Sum(xs) <= -Abs(threshold) {
      assert LossAt(threshold, xs, |xs|);
    }
  }

  lemma DailyStep(threshold: real, d: DailyState, ys: seq<real>, x: real)
    requires d.cumulative == Sum(ys) && (d.tripped <==> SomeLoss(threshold, ys))
    ensures var d' := d.UpdatePnl(threshold, x);
            d'.cumulative == Sum(ys + [x]) && (d'.tripped <==> SomeLoss(threshold, ys + [x]))
  {
    assert (ys + [x])[..|ys + [x]| - 1] == ys;
    SomeLossExtends(threshold, ys, x);
  }

  /** For every history: the breaker holds the sum of the updates since the last reset, and is tripped
      exactly when some nonempty prefix of those updates sums to minus the threshold or below. Once
      tripped it stays so until a reset, because later updates keep that prefix. */
  lemma {:induction false} DailyTrippedIff(threshold: real, h: seq<Reading>)
    ensures var xs := SinceReset(h); var d := DailyAfter(threshold, h);
            d.cumulative == Sum(xs) && (d.tripped <==> SomeLoss(threshold, xs))
  {
    if h != [] && h[|h| - 1].Update? {
      var past, x := h[..|h| - 1], h[|h| - 1].x;
      DailyTrippedIff(threshold, past);
      DailyStep(threshold, DailyAfter(threshold, past), SinceReset(past), x);
    }
  }

  /** `v` is the cumulative result at the latest update that was at or past the threshold. */
  predicate LatestLoss(threshold: real, xs: seq<real>, v: real) {
    exists k: nat :: 1 <= k <= |xs| && LossAt(threshold, xs, k) && v == Sum(xs[..k])
                     && forall j: nat :: k < j <= |xs| ==> !LossAt(threshold, xs, j)
  }

  lemma LatestLossExtends(threshold: real, ys: seq<real>, x: real, v: real)
    ensures Sum(ys + [x]) <= -Abs(threshold) ==> LatestLoss(threshold, ys + [x], Sum(ys + [x]))
    ensures !(Sum(ys + [x]) <= -Abs(threshold)) && LatestLoss(threshold, ys, v) ==> LatestLoss(threshold, ys + [x], v)
  {
    var xs := ys + [x];
    assert xs[..|xs|] == xs;
    forall k: nat | k <= |ys| ensures xs[..k] == ys[..k] {}
    if Sum(xs) <= -Abs(threshold) {
      assert LossAt(threshold, xs, |xs|);
    } else if LatestLoss(threshold, ys, v) {
      var k: nat :| 1 <= k <= |ys| && LossAt(threshold, ys, k) && v == Sum(ys[..k])
                    && forall j: nat :: k < j <= |ys| ==> !LossAt(threshold, ys, j);
      assert LossAt(threshold, xs, k);
      forall j: nat | k < j <= |xs| ensures !LossAt(threshold, xs, j) {
        if j <= |ys| { assert !LossAt(threshold, ys, j); }
      }
    }
  }

  /** For every history: a tripped breaker holds the cumulative result of the latest update at or past the
      threshold, an untripped one holds zero. */
  lemma {:induction false} DailyLastValue(threshold: real, h: seq<Reading>)
    ensures var d := DailyAfter(threshold, h);
            if d.tripped then LatestLoss(threshold, SinceReset(h), d.lastValue) else d.lastValue == 0.0
  {
    if h != [] && h[|h| - 1].Update? {
      var past, x := h[..|h| - 1], h[|h| - 1].x;
      DailyLastValue(threshold, past);
      DailyTrippedIff(threshold, past);
      LatestLossExtends(threshold, SinceReset(past), x, DailyAfter(threshold, past).lastValue);
      assert (SinceReset(past) + [x])[..|SinceReset(past)|] == SinceReset(past);
    }
  }

  // ----- Maximum drawdown -----

  datatype DrawdownState = DrawdownState(peak: real, tripped: bool, lastValue: real) {
    function UpdateEquity(threshold: real, equity: real): DrawdownState {
      var p := if equity > peak then equity else peak;
      if p > 0.0 && (p - equity) / p >= threshold
      then DrawdownState(p, true, (p - equity) / p)
      else DrawdownState(p, tripped, lastValue)
    }
  }

  const FRESH_DRAWDOWN := DrawdownState(0.0, false, 0.0)

  function DrawdownAfter(threshold: real, h: seq<Reading>): DrawdownState {
    if h == [] then FRESH_DRAWDOWN
    else
      match h[|h| - 1]
      case Reset => FRESH_DRAWDOWN
      case Update(x) => DrawdownAfter(threshold, h[..|h| - 1]).UpdateEquity(threshold, x)
  }

  /** The largest of the readings and zero. */
  function Peak(xs: seq<real>): real {
    if xs == [] then 0.0
    else
      var m, x := Peak(xs[..|xs| - 1]), xs[|xs| - 1];
      if x > m then x else m
  }

  lemma {:induction false} PeakIsMax(xs: seq<real>)
    ensures Peak(xs) >= 0.0
    ensures forall i :: 0 <= i < |xs| ==> xs[i] <= Peak(xs)
    ensures Peak(xs) == 0.0 || Peak(xs) in xs
  {
    if xs != [] {
      PeakIsMax(xs[..|xs| - 1]);
      assert forall i :: 0 <= i < |xs| - 1 ==> xs[i] == xs[..|xs| - 1][i];
    }
  }

  predicate FarBelow(threshold: real, peak: real, equity: real) {
    peak > 0.0 && peak - equity >= threshold * peak
  }

  /** From the running peak at reading `j`, equity has fallen by at least the threshold fraction. */
  predicate DrawdownAt(threshold: real, xs: seq<real>, j: nat)
    requires j < |xs|
  {
    FarBelow(threshold, Peak(xs[..j + 1]), xs[j])
  }

  lemma RatioIff(peak: real, equity: real, threshold: real)
    requires peak > 0.0
    ensures (peak - equity) / peak >= threshold <==> peak - equity >= threshold * peak
  {
    assert (peak - equity) / peak * peak == peak - equity;
    if (peak - equity) / peak >= threshold {
      assert (peak - equity) / peak * peak >= threshold * peak;
    } else {
      assert (peak - equity) / peak * peak < threshold * peak;
    }
  }

  lemma DrawdownStep(threshold: real, d: DrawdownState, ys: seq<real>, x: real)
    requires d.peak == Peak(ys)
    ensures var d' := d.UpdateEquity(threshold, x);
            && d'.peak == Peak(ys + [x])
            && (d'.tripped <==> d.tripped || DrawdownAt(threshold, ys + [x], |ys|))
  {
    var xs := ys + [x];
    assert xs[..|xs| - 1] == ys && xs[..|ys| + 1] == xs;
    var m := if x > d.peak then x else d.peak;
    assert Peak(xs) == m;
    UpdateTrips(threshold, d, x);
    assert DrawdownAt(threshold, xs, |ys|) == FarBelow(threshold, m, x);
  }

  lemma UpdateTrips(threshold: real, d: DrawdownState, x: real)
    ensures var m := if x > d.peak then x else d.peak;
            && d.UpdateEquity(threshold, x).peak == m
            && (d.UpdateEquity(threshold, x).tripped <==> d.tripped || FarBelow(threshold, m, x))
  {
    var m := if x > d.peak then x else d.peak;
    if m > 0.0 {
      RatioIff(m, x, threshold);
    }
  }

  lemma DrawdownAtPrefix(threshold: real, ys: seq<real>, x: real, j: nat)
    requires j < |ys|
    ensures DrawdownAt(threshold, ys, j) == DrawdownAt(threshold, ys + [x], j)
  {
    assert (ys + [x])[..j + 1] == ys[..j + 1];
  }

  /** Some reading lies the threshold fraction below the running peak. */
  predicate SomeDrawdown(threshold: real, xs: seq<real>) {
    exists j: nat :: j < |xs| && DrawdownAt(threshold, xs, j)
  }

  lemma SomeDrawdownExtends(threshold: real, ys: seq<real>, x: real)
    ensures SomeDrawdown(threshold, ys + [x]) <==>
            SomeDrawdown(threshold, ys) || DrawdownAt(threshold, ys + [x], |ys|)
  {
    if SomeDrawdown(threshold, ys) {
      var j: nat :| j < |ys| && DrawdownAt(threshold, ys, j);
      DrawdownAtPrefix(threshold, ys, x, j);
    }
    if SomeDrawdown(threshold, ys + [x]) {
      var j: nat :| j < |ys + [x]| && DrawdownAt(threshold, ys + [x], j);
      if j < |ys| { DrawdownAtPrefix(threshold, ys, x, j); }
    }
  }

  /** For every history and every threshold: the breaker holds the running peak since the last reset,
      and is tripped exactly when some reading lies the threshold fraction below the peak at that time. */
  lemma {:induction false} DrawdownTrippedIff(threshold: real, h: seq<Reading>)
    ensures var xs := SinceReset(h); var d := DrawdownAfter(threshold, h);
            d.peak == Peak(xs) && (d.tripped <==> SomeDrawdown(threshold, xs))
  {
    if h != [] && h[|h| - 1].Update? {
      var past, x := h[..|h| - 1], h[|h| - 1].x;
      DrawdownTrippedIff(threshold, past);
      DrawdownStep(threshold, DrawdownAfter(threshold, past), SinceReset(past), x);
      SomeDrawdownExtends(threshold, SinceReset(past), x);
    }
  }

  /** Some earlier positive equity and a later one differ by the threshold fraction of the earlier. */
  predicate Falls(threshold: real, xs: seq<real>, i: nat, j: nat)
    requires i <= j < |xs|
  {
    xs[i] > 0.0 && xs[i] - xs[j] >= threshold * xs[i]
  }

  lemma FallFromPeak(threshold: real, e: real, peak: real, later: real)
    requires 0.0 < e <= peak && threshold <= 1.0 && e - later >= threshold * e
    ensures peak - later >= threshold * peak
  {
    assert (1.0 - threshold) * e <= (1.0 - threshold) * peak;
  }

  /** Some earlier equity and some later one are that far apart. */
  predicate SomeFall(threshold: real, xs: seq<real>) {
    exists i: nat, j: nat :: i <= j < |xs| && Falls(threshold, xs, i, j)
  }

  /** With a threshold of at most one the peak can be any earlier positive equity: the breaker is
      tripped exactly when some earlier equity and later one are that far apart. */
  lemma DrawdownTrippedIffPair(threshold: real, h: seq<Reading>)
    requires threshold <= 1.0
    ensures DrawdownAfter(threshold, h).tripped <==> SomeFall(threshold, SinceReset(h))
  {
    DrawdownTrippedIff(threshold, h);
    var xs := SinceReset(h);
    if SomeDrawdown(threshold, xs) {
      var j: nat :| j < |xs| && DrawdownAt(threshold, xs, j);
      var i := PeakIndex(threshold, xs, j);
    }
    if i: nat, j: nat :| i <= j < |xs| && Falls(threshold, xs, i, j) {
      FallTrips(threshold, xs, i, j);
    }
  }

  lemma {:induction false} FallTrips(threshold: real, xs: seq<real>, i: nat, j: nat)
    requires threshold <= 1.0 && i <= j < |xs| && Falls(threshold, xs, i, j)
    ensures DrawdownAt(threshold, xs, j)
  {
    PeakIsMax(xs[..j + 1]);
    assert xs[..j + 1][i] == xs[i];
    FallFromPeak(threshold, xs[i], Peak(xs[..j + 1]), xs[j]);
  }

  lemma PeakIndex(threshold: real, xs: seq<real>, j: nat) returns (i: nat)
    requires j < |xs| && DrawdownAt(threshold, xs, j)
    ensures i <= j && Falls(threshold, xs, i, j)
  {
    PeakIsMax(xs[..j + 1]);
    i :| 0 <= i < j + 1 && xs[..j + 1][i] == Peak(xs[..j + 1]);
  }

  lemma OneMoreUpdate(threshold: real, h: seq<Reading>, x: real)
    ensures SinceReset(h + [Update(x)]) == SinceReset(h) + [x]
    ensures DrawdownAfter(threshold, h + [Update(x)]) == DrawdownAfter(threshold, h).UpdateEquity(threshold, x)
  {
    assert (h + [Update(x)])[..|h + [Update(x)]| - 1] == h;
  }

  /** Above one the pairwise form always fails: the readings 1, 2, 1 - threshold fall by the threshold times the
      first, but by less than that times the peak. */
  lemma PairFormFailsAboveOne(threshold: real)
    requires threshold > 1.0
    ensures var h := [Update(1.0), Update(2.0), Update(1.0 - threshold)];
            !DrawdownAfter(threshold, h).tripped && SomeFall(threshold, SinceReset(h))
  {
    var h1 := [] + [Update(1.0)];
    var h2 := h1 + [Update(2.0)];
    assert h2 + [Update(1.0 - threshold)] == [Update(1.0), Update(2.0), Update(1.0 - threshold)];
    OneMoreUpdate(threshold, [], 1.0);
    OneMoreUpdate(threshold, h1, 2.0);
    OneMoreUpdate(threshold, h2, 1.0 - threshold);
    assert DrawdownAfter(threshold, h1) == DrawdownState(1.0, false, 0.0);
    assert DrawdownAfter(threshold, h2) == DrawdownState(2.0, false, 0.0);
    RatioIff(2.0, 1.0 - threshold, threshold);
    assert Falls(threshold, SinceReset(h2 + [Update(1.0 - threshold)]), 0, 2);
  }

  ghost predicate PairForm(threshold: real) {
    forall h :: DrawdownAfter(threshold, h).tripped <==> SomeFall(threshold, SinceReset(h))
  }

  /** The breaker is the pairwise statement on every history if and only if its threshold is at most one. */
  lemma PairFormIff(threshold: real)
    ensures PairForm(threshold) <==> threshold <= 1.0
  {
    if threshold <= 1.0 {
      forall h ensures DrawdownAfter(threshold, h).tripped <==> SomeFall(threshold, SinceReset(h)) {
        DrawdownTrippedIffPair(threshold, h);
      }
    } else {
      PairFormFailsAboveOne(threshold);
    }
  }

  // ----- The mutable breakers -----

  class DailyLossBreaker {
    const threshold: real
    var cumulativePnl: real
    var tripped: bool
    var lastValue: real
    ghost var history: seq<Reading>

    /** The fields are those of the history the breaker has seen. */
    ghost predicate Valid()
      reads this
    {
      State() == DailyAfter(threshold, history)
    }

    ghost function State(): DailyState
      reads this
    {
      DailyState(cumulativePnl, tripped, lastValue)
    }

    constructor (startingBalance: real, thresholdPct: real)
      ensures threshold == startingBalance * thresholdPct
      ensures State() == FRESH_DAILY && history == [] && Valid()
    {
      threshold := startingBalance * thresholdPct;
      cumulativePnl, tripped, lastValue, history := 0.0, false, 0.0, [];
    }

    method UpdatePnl(delta: real)
      requires Valid()
      modifies this
      ensures Valid() && history == old(history) + [Update(delta)]
      ensures State() == old(State()).UpdatePnl(threshold, delta)
    {
      cumulativePnl := cumulativePnl + delta;
      if cumulativePnl <= -Abs(threshold) {
        tripped, lastValue := true, cumulativePnl;
      }
      history := history + [Update(delta)];
      assert history[..|history| - 1] == old(history);
    }

    method IsTripped() returns (r: bool)
      requires Valid()
      ensures r == tripped
      ensures r <==> SomeLoss(threshold, SinceReset(history))
    {
      DailyTrippedIff(threshold, history);
      r := tripped;
    }

    method ClearState()
      modifies this
      ensures Valid() && history == old(history) + [Reset] && State() == FRESH_DAILY
    {
      cumulativePnl, tripped, lastValue := 0.0, false, 0.0;
      history := history + [Reset];
    }
  }

  class MaxDrawdownBreaker {
    const thresholdPct: real
    var peak: real
    var tripped: bool
    var lastValue: real
    ghost var history: seq<Reading>

    ghost predicate Valid()
      reads this
    {
      State() == DrawdownAfter(thresholdPct, history)
    }

    ghost function State(): DrawdownState
      reads this
    {
      DrawdownState(peak, tripped, lastValue)
    }

    constructor (thresholdPct: real)
      ensures this.thresholdPct == thresholdPct
      ensures State() == FRESH_DRAWDOWN && history == [] && Valid()
    {
      this.thresholdPct := thresholdPct;
      peak, tripped, lastValue, history := 0.0, false, 0.0, [];
    }

    method UpdateEquity(equity: real)
      requires Valid()
      modifies this
      ensures Valid() && history == old(history) + [Update(equity)]
      ensures State() == old(State()).UpdateEquity(thresholdPct, equity)
    {
      if equity > peak {
        peak := equity;
      }
      if peak > 0.0 {
        var drawdown := (peak - equity) / peak;
        if drawdown >= thresholdPct {
          tripped, lastValue := true, drawdown;
        }
      }
      history := history + [Update(equity)];
      assert history[..|history| - 1] == old(history);
    }

    method IsTripped() returns (r: bool)
      requires Valid()
      ensures r == tripped
      ensures r <==> SomeDrawdown(thresholdPct, SinceReset(history))
    {
      DrawdownTrippedIff(thresholdPct, history);
      r := tripped;
    }

    method ClearState()
      modifies this
      ensures Valid() && history == old(history) + [Reset] && State() == FRESH_DRAWDOWN
    {
      peak, tripped, lastValue := 0.0, false, 0.0;
      history := history + [Reset];
    }
  }
}
