/** scripts/backtest_5_sltp.py: the first-touch scan over price bars, and the leveraged equity curve with
    its one-pass maximum drawdown. */
module Backtest {
  import opened Options
  import opened Messages
  import opened Sums

  /** The price that lies the fraction `f` above the entry. */
  function Level(entry: real, f: real): real {
    entry * (1.0 + f)
  }

  /** One column per array of the data frame; all of the same length. */
  datatype Bars = Bars(close: seq<real>, high: seq<real>, low: seq<real>, longs: seq<bool>, shorts: seq<bool>) {
    predicate Rectangular() {
      |close| == |high| == |low| == |longs| == |shorts|
    }

    /** Every bar's close lies between its low and its high, and prices are positive. */
    predicate Sane() {
      Rectangular() && forall i :: 0 <= i < |close| ==> 0.0 < low[i] <= close[i] <= high[i]
    }

    predicate Signals(i: nat)
      requires Rectangular() && i < |close|
    {
      longs[i] || shorts[i]
    }

    predicate HitsStop(entry: real, side: Side, sl: real, j: nat)
      requires Rectangular() && j < |close|
    {
      match side
      case Long => low[j] <= Level(entry, -sl)
      case Short => high[j] >= Level(entry, sl)
    }

    predicate HitsProfit(entry: real, side: Side, tp: real, j: nat)
      requires Rectangular() && j < |close|
    {
      match side
      case Long => high[j] >= Level(entry, tp)
      case Short => low[j] <= Level(entry, -tp)
    }

    predicate Touches(entry: real, side: Side, sl: real, tp: real, j: nat)
      requires Rectangular() && j < |close|
    {
      HitsStop(entry, side, sl, j) || HitsProfit(entry, side, tp, j)
    }

    /** Bar `j` is the earliest after bar `i` that touches either level. */
    predicate FirstTouch(i: nat, side: Side, sl: real, tp: real, j: nat)
      requires Rectangular() && i < j < |close|
    {
      && Touches(close[i], side, sl, tp, j)
      && forall k :: i < k < j ==> !Touches(close[i], side, sl, tp, k)
    }

    /** Profit or loss, as a fraction of the entry, of closing at `price`. */
    function Return(entry: real, price: real, side: Side): real
      requires entry != 0.0
    {
      match side
      case Long => (price - entry) / entry
      case Short => (entry - price) / entry
    }

    /** The result is a number: a trade that no later bar ends is measured against its entry, which must not
        be zero then. */
    predicate Measurable(i: nat, side: Side, sl: real, tp: real)
      requires Rectangular() && i + 1 < |close|
    {
      close[i] != 0.0 || exists j :: i < j < |close| && Touches(close[i], side, sl, tp, j)
    }

    /** The trade entered at the close of bar `i` ends with `pnl`: at the first touch, the stop-loss winning
        a tie, or at the last close when no later bar touches a level. */
    ghost predicate Outcome(i: nat, side: Side, sl: real, tp: real, pnl: real)
      requires Rectangular() && i + 1 < |close|
    {
      || (exists j :: i < j < |close| && FirstTouch(i, side, sl, tp, j)
            && pnl == if HitsStop(close[i], side, sl, j) then -sl else tp)
      || ((forall j :: i < j < |close| ==> !Touches(close[i], side, sl, tp, j))
            && close[i] != 0.0 && pnl == Return(close[i], close[|close| - 1], side))
    }
  }

  /** The bars with a signal among the first `n`, in order. */
  function SignalBars(bars: Bars, n: nat): (s: seq<nat>)
    requires bars.Rectangular() && n <= |bars.close|
    ensures forall m :: 0 <= m < |s| ==> s[m] < n && (bars.longs[s[m]] || bars.shorts[s[m]])
    ensures forall a, b :: 0 <= a < b < |s| ==> s[a] < s[b]
    ensures forall i: nat :: i < n && (bars.longs[i] || bars.shorts[i]) ==> i in s
  {
    if n == 0 then []
    else SignalBars(bars, n - 1) + if bars.Signals(n - 1) then [n - 1] else []
  }

  /** Every bar but the last can be an entry. */
  function Candidates(bars: Bars): nat {
    if |bars.close| == 0 then 0 else |bars.close| - 1
  }

  ghost predicate Results(bars: Bars, sl: real, tp: real, signals: seq<nat>, pnls: seq<real>)
    requires bars.Rectangular()
  {
    && |pnls| == |signals|
    && forall m :: 0 <= m < |signals| ==>
         && signals[m] + 1 < |bars.close|
         && (bars.longs[signals[m]] || bars.shorts[signals[m]])
         && bars.Outcome(signals[m], if bars.longs[signals[m]] then Long else Short, sl, tp, pnls[m])
  }

  lemma ResultsAppend(bars: Bars, sl: real, tp: real, signals: seq<nat>, pnls: seq<real>, i: nat, pnl: real)
    requires bars.Rectangular() && Results(bars, sl, tp, signals, pnls)
    requires i + 1 < |bars.close| && (bars.longs[i] || bars.shorts[i])
    requires bars.Outcome(i, if bars.longs[i] then Long else Short, sl, tp, pnl)
    ensures Results(bars, sl, tp, signals + [i], pnls + [pnl])
  {
  }

  /** One result per signal bar, in order, each the outcome of its trade. The last bar is never an entry. */
  method RunBacktest(bars: Bars, sl: real, tp: real) returns (pnls: seq<real>)
    requires bars.Rectangular()
    requires forall i: nat :: i + 1 < |bars.close| && (bars.longs[i] || bars.shorts[i]) ==>
      bars.Measurable(i, if bars.longs[i] then Long else Short, sl, tp)
    ensures Results(bars, sl, tp, SignalBars(bars, Candidates(bars)), pnls)
  {
    var n := |bars.close|;
    pnls := [];
    var i := 0;
    while i < n - 1
      invariant 0 <= i <= Candidates(bars)
      invariant Results(bars, sl, tp, SignalBars(bars, i), pnls)
    {
      var direction: Option<Side> := None;
      if bars.longs[i] {
        direction := Some(Long);
      } else if bars.shorts[i] {
        direction := Some(Short);
      }
      if direction.Some? {
        var pnl := ScanForward(bars, i, direction.value, sl, tp);
        ResultsAppend(bars, sl, tp, SignalBars(bars, i), pnls, i, pnl);
        pnls := pnls + [pnl];
      }
      i := i + 1;
    }
  }

  method PriceLevels(entry: real, side: Side, sl: real, tp: real) returns (slPrice: real, tpPrice: real)
    ensures slPrice == Level(entry, if side.Long? then -sl else sl)
    ensures tpPrice == Level(entry, if side.Long? then tp else -tp)
  {
    if side.Long? {
      slPrice, tpPrice := entry * (1.0 - sl), entry * (1.0 + tp);
    } else {
      slPrice, tpPrice := entry * (1.0 + sl), entry * (1.0 - tp);
    }
  }

  /** The inner loop with its breaks. */
  method ScanForward(bars: Bars, i: nat, side: Side, sl: real, tp: real) returns (pnl: real)
    requires bars.Rectangular() && i + 1 < |bars.close| && bars.Measurable(i, side, sl, tp)
    ensures bars.Outcome(i, side, sl, tp, pnl)
  {
    var entry := bars.close[i];
    var slPrice, tpPrice := PriceLevels(entry, side, sl, tp);
    var result: Option<real> := None;
    var j := i + 1;
    while j < |bars.close| && result.None?
      invariant i < j <= |bars.close|
      invariant result.None? ==> forall k :: i < k < j ==> !bars.Touches(entry, side, sl, tp, k)
      invariant result.Some? ==> bars.Outcome(i, side, sl, tp, result.value)
      decreases |bars.close| - j, result.None?
    {
      var h, l := bars.high[j], bars.low[j];
      if side.Long? {
        if l <= slPrice {
          result := Some(-sl);
        } else if h >= tpPrice {
          result := Some(tp);
        }
      } else {
        if h >= slPrice {
          result := Some(-sl);
        } else if l <= tpPrice {
          result := Some(tp);
        }
      }
      if result.Some? {
        assert bars.FirstTouch(i, side, sl, tp, j);
      } else {
        j := j + 1;
      }
    }
    if result.Some? {
      pnl := result.value;
    } else {
      var last := bars.close[|bars.close| - 1];
      pnl := if side.Long? then (last - entry) / entry else (entry - last) / entry;
    }
  }

  /** The return of a price on an entry, for the side that gains when prices rise. */
  function Rise(entry: real, price: real): real
    requires entry > 0.0
  {
    price / entry - 1.0
  }

  lemma LevelIsRise(entry: real, f: real, price: real)
    requires entry > 0.0
    ensures price <= Level(entry, f) <==> Rise(entry, price) <= f
    ensures price >= Level(entry, f) <==> Rise(entry, price) >= f
  {
    var r := Rise(entry, price);
    Undo(price, entry);
    assert Level(entry, r) == price;
    LevelMonotone(entry, r, f);
    LevelMonotone(entry, f, r);
  }

  lemma LevelMonotone(entry: real, f: real, g: real)
    requires entry > 0.0
    ensures f <= g ==> Level(entry, f) <= Level(entry, g)
    ensures f < g ==> Level(entry, f) < Level(entry, g)
  {
    assert Level(entry, g) - Level(entry, f) == entry * (g - f);
  }

  /** What touching a level means: a bar stops a trade exactly when the worst return it offers in the direction of the
      trade is at or below minus the stop-loss, and takes its profit exactly when the best one reaches the
      take-profit. */
  lemma LevelsAreReturns(bars: Bars, i: nat, sl: real, tp: real, j: nat)
    requires bars.Rectangular() && i < |bars.close| && j < |bars.close| && bars.close[i] > 0.0
    ensures bars.HitsStop(bars.close[i], Long, sl, j) <==> Rise(bars.close[i], bars.low[j]) <= -sl
    ensures bars.HitsStop(bars.close[i], Short, sl, j) <==> -Rise(bars.close[i], bars.high[j]) <= -sl
    ensures bars.HitsProfit(bars.close[i], Long, tp, j) <==> Rise(bars.close[i], bars.high[j]) >= tp
    ensures bars.HitsProfit(bars.close[i], Short, tp, j) <==> -Rise(bars.close[i], bars.low[j]) >= tp
  {
    var e := bars.close[i];
    LevelIsRise(e, -sl, bars.low[j]);
    LevelIsRise(e, sl, bars.high[j]);
    LevelIsRise(e, tp, bars.high[j]);
    LevelIsRise(e, -tp, bars.low[j]);
  }

  /** A trade that no bar ends has the return of the last close, in its own direction. */
  lemma OpenTradeReturns(bars: Bars, i: nat, side: Side, sl: real, tp: real, pnl: real)
    requires bars.Rectangular() && i + 1 < |bars.close| && bars.close[i] > 0.0 && bars.Outcome(i, side, sl, tp, pnl)
    requires forall j :: i < j < |bars.close| ==> !bars.Touches(bars.close[i], side, sl, tp, j)
    ensures var last := Rise(bars.close[i], bars.close[|bars.close| - 1]); pnl == if side.Long? then last else -last
  {
    var e, x := bars.close[i], bars.close[|bars.close| - 1];
    SplitQuotient(x, e);
  }

  lemma SplitQuotient(x: real, e: real)
    requires e > 0.0
    ensures (x - e) / e == x / e - 1.0 && (e - x) / e == 1.0 - x / e
  {
    var v := x / e;
    Undo(x, e);
    Undo(x - e, e);
    Undo(e - x, e);
    assert (v - 1.0) * e == x - e && (1.0 - v) * e == e - x;
    Cancel((x - e) / e, v - 1.0, e);
    Cancel((e - x) / e, 1.0 - v, e);
  }

  lemma Cancel(u: real, v: real, e: real)
    requires e > 0.0 && u * e == v * e
    ensures u == v
  {
    assert (u - v) * e == 0.0;
  }

  /** The specification leaves no choice: a trade has one outcome. */
  lemma OutcomeIsUnique(bars: Bars, i: nat, side: Side, sl: real, tp: real, p: real, q: real)
    requires bars.Rectangular() && i + 1 < |bars.close|
    requires bars.Outcome(i, side, sl, tp, p) && bars.Outcome(i, side, sl, tp, q)
    ensures p == q
  {
    if exists j :: i < j < |bars.close| && bars.Touches(bars.close[i], side, sl, tp, j) {
      var j :| i < j < |bars.close| && bars.FirstTouch(i, side, sl, tp, j)
        && p == if bars.HitsStop(bars.close[i], side, sl, j) then -sl else tp;
      var k :| i < k < |bars.close| && bars.FirstTouch(i, side, sl, tp, k)
        && q == if bars.HitsStop(bars.close[i], side, sl, k) then -sl else tp;
      assert j == k;
    }
  }

  lemma ReturnBetween(entry: real, price: real, lo: real, hi: real)
    requires entry > 0.0 && entry * (1.0 + lo) <= price <= entry * (1.0 + hi)
    ensures lo <= (price - entry) / entry <= hi
  {
    var r := (price - entry) / entry;
    Undo(price - entry, entry);
    OrderByScaling(lo, r, entry);
    OrderByScaling(r, hi, entry);
  }

  lemma OrderByScaling(u: real, v: real, e: real)
    requires e > 0.0 && u * e <= v * e
    ensures u <= v
  {
  }

  lemma LastWithin(entry: real, price: real, side: Side, sl: real, tp: real)
    requires entry > 0.0
    requires side.Long? ==> entry * (1.0 - sl) <= price <= entry * (1.0 + tp)
    requires side.Short? ==> entry * (1.0 - tp) <= price <= entry * (1.0 + sl)
    ensures entry != 0.0 && -sl <= (if side.Long? then (price - entry) / entry else (entry - price) / entry) <= tp
  {
    if side.Long? {
      ReturnBetween(entry, price, -sl, tp);
    } else {
      ReturnBetween(entry, price, -tp, sl);
      assert (entry - price) / entry == -((price - entry) / entry);
    }
  }

  /** On sane bars with nonnegative levels no trade ends outside [-sl, tp], not even one that is still open
      at the end of the data. */
  lemma OutcomeWithinLevels(bars: Bars, i: nat, side: Side, sl: real, tp: real, pnl: real)
    requires bars.Sane() && i + 1 < |bars.close| && sl >= 0.0 && tp >= 0.0
    requires bars.Outcome(i, side, sl, tp, pnl)
    ensures -sl <= pnl <= tp
  {
    if pnl != -sl && pnl != tp {
      var n := |bars.close|;
      assert !bars.Touches(bars.close[i], side, sl, tp, n - 1);
      LastWithin(bars.close[i], bars.close[n - 1], side, sl, tp);
    }
  }

  // ----- The equity curve -----

  /** Leverage applied to one result; a loss of the whole stake or more is a liquidation. */
  function Leveraged(p: real, leverage: real): real {
    if p * leverage <= -1.0 then -1.0 else p * leverage
  }

  function LeveragedAll(pnls: seq<real>, leverage: real): (lev: seq<real>)
    ensures |lev| == |pnls|
    ensures forall i :: 0 <= i < |lev| ==> lev[i] >= -1.0
  {
    seq(|pnls|, i requires 0 <= i < |pnls| => Leveraged(pnls[i], leverage))
  }

  /** A result is scaled by the leverage unless that loses the stake or more, which counts as losing the stake. */
  lemma LeveragedIs(pnls: seq<real>, leverage: real, i: nat)
    requires i < |pnls|
    ensures pnls[i] * leverage > -1.0 ==> LeveragedAll(pnls, leverage)[i] == pnls[i] * leverage
    ensures pnls[i] * leverage <= -1.0 ==> LeveragedAll(pnls, leverage)[i] == -1.0
  {
  }

  /** Equity after one more result. */
  function Grow(equity: real, result: real): real {
    equity * (1.0 + result)
  }

  /** Equity before the first trade and after each one, starting from one. */
  function Curve(lev: seq<real>): (curve: seq<real>)
    ensures |curve| == |lev| + 1
  {
    if lev == [] then [1.0]
    else
      var c := Curve(lev[..|lev| - 1]);
      c + [Grow(c[|lev| - 1], lev[|lev| - 1])]
  }

  lemma {:induction false} CurvePrefix(lev: seq<real>, k: nat)
    requires k <= |lev|
    ensures Curve(lev[..k]) == Curve(lev)[..k + 1]
  {
    if k == |lev| {
      assert lev[..k] == lev;
    } else {
      CurvePrefix(lev[..|lev| - 1], k);
      assert lev[..|lev| - 1][..k] == lev[..k];
      assert Curve(lev)[..k + 1] == Curve(lev[..|lev| - 1])[..k + 1];
    }
  }

  /** Every result is compounded: equity starts at one and each trade moves it by its share of the equity before. */
  lemma {:induction false} CurveStep(lev: seq<real>, k: nat)
    requires k < |lev|
    ensures Curve(lev)[0] == 1.0 && Curve(lev)[k + 1] == Curve(lev)[k] + Curve(lev)[k] * lev[k]
  {
    CurvePrefix(lev, 0);
    CurvePrefix(lev, k + 1);
    CurvePrefix(lev, k);
    assert lev[..k + 1][..k] == lev[..k];
    assert Curve(lev[..k + 1])[k + 1] == Curve(lev)[k + 1];
    assert Curve(lev[..k])[k] == Curve(lev)[k];
  }

  predicate NoneBelowMinusOne(lev: seq<real>) {
    forall i :: 0 <= i < |lev| ==> lev[i] >= -1.0
  }

  /** Equity is never negative, and it is positive after `k` trades exactly when none of them was liquidated:
      from the first liquidation on it is zero. */
  lemma {:induction false} PositiveIffNoLiquidation(lev: seq<real>, k: nat)
    requires NoneBelowMinusOne(lev) && k <= |lev|
    ensures Curve(lev)[k] >= 0.0
    ensures Curve(lev)[k] > 0.0 <==> forall i :: 0 <= i < k ==> lev[i] > -1.0
  {
    if k == 0 {
      CurvePrefix(lev, 0);
      assert Curve(lev)[..1][0] == 1.0;
    } else {
      PositiveIffNoLiquidation(lev, k - 1);
      CurveStep(lev, k - 1);
      GrowSign(Curve(lev)[k - 1], lev[k - 1]);
      assert (forall i :: 0 <= i < k ==> lev[i] > -1.0) <==>
             (forall i :: 0 <= i < k - 1 ==> lev[i] > -1.0) && lev[k - 1] > -1.0;
    }
  }

  lemma GrowSign(equity: real, result: real)
    requires equity >= 0.0 && result >= -1.0
    ensures Grow(equity, result) >= 0.0
    ensures Grow(equity, result) > 0.0 <==> equity > 0.0 && result > -1.0
  {
  }

  /** Once a trade is liquidated, equity is zero for good. */
  lemma LiquidationIsFinal(pnls: seq<real>, leverage: real, k: nat, m: nat)
    requires k < |pnls| && pnls[k] * leverage <= -1.0 && k < m <= |pnls|
    ensures Curve(LeveragedAll(pnls, leverage))[m] == 0.0
  {
    assert LeveragedAll(pnls, leverage)[k] == -1.0;
    PositiveIffNoLiquidation(LeveragedAll(pnls, leverage), m);
  }

  lemma NotLiquidated(p: real, sl: real, leverage: real)
    requires p >= -sl && leverage >= 0.0 && sl * leverage < 1.0
    ensures Leveraged(p, leverage) > -1.0
  {
    assert (p + sl) * leverage >= 0.0;
  }

  /** A backtest whose stop-loss times leverage stays below one never loses everything. */
  lemma BacktestStaysSolvent(bars: Bars, sl: real, tp: real, pnls: seq<real>, leverage: real, k: nat)
    requires bars.Sane() && sl >= 0.0 && tp >= 0.0 && leverage >= 0.0 && sl * leverage < 1.0
    requires Results(bars, sl, tp, SignalBars(bars, Candidates(bars)), pnls) && k <= |pnls|
    ensures Curve(LeveragedAll(pnls, leverage))[k] > 0.0
  {
    var lev := LeveragedAll(pnls, leverage);
    var signals := SignalBars(bars, Candidates(bars));
    forall i | 0 <= i < k ensures lev[i] > -1.0 {
      OutcomeWithinLevels(bars, signals[i], if bars.longs[signals[i]] then Long else Short, sl, tp, pnls[i]);
      NotLiquidated(pnls[i], sl, leverage);
      assert lev[i] == Leveraged(pnls[i], leverage);
    }
    PositiveIffNoLiquidation(lev, k);
  }

  // ----- Maximum drawdown -----

  /** The fall from equity `e` to `x` as a fraction of `e`. */
  function Drop(e: real, x: real): real
    requires e > 0.0
  {
    (e - x) / e
  }

  /** No later point lies more than the fraction `d` below an earlier positive one. */
  predicate BoundsDrops(curve: seq<real>, d: real) {
    forall i, j :: 0 <= i <= j < |curve| && curve[i] > 0.0 ==> Drop(curve[i], curve[j]) <= d
  }

  /** Some later point lies exactly that far below an earlier positive one. */
  predicate AttainsDrop(curve: seq<real>, d: real) {
    exists i, j :: 0 <= i <= j < |curve| && curve[i] > 0.0 && Drop(curve[i], curve[j]) == d
  }

  /** `d` is the maximum of (E_i - E_j) / E_i over all pairs i <= j with E_i positive. */
  predicate MaxDrawdown(curve: seq<real>, d: real) {
    BoundsDrops(curve, d) && AttainsDrop(curve, d)
  }

  predicate IsHighest(curve: seq<real>, peak: real) {
    peak in curve && forall i :: 0 <= i < |curve| ==> curve[i] <= peak
  }

  lemma DropGrowsWithPeak(e: real, x: real, peak: real)
    requires 0.0 < e <= peak && x >= 0.0
    ensures Drop(e, x) <= Drop(peak, x)
  {
    var u, v := Drop(e, x), Drop(peak, x);
    Undo(e - x, e);
    Undo(peak - x, peak);
    assert (1.0 - u) * e == x && (1.0 - v) * peak == x;
    Smaller(1.0 - u, e, 1.0 - v, peak);
  }

  lemma Undo(a: real, b: real)
    requires b > 0.0
    ensures a / b * b == a
  {
  }

  lemma Smaller(u: real, a: real, v: real, b: real)
    requires 0.0 < a <= b && u * a == v * b && v * b >= 0.0
    ensures v <= u
  {
  }

  lemma DropWithinOne(peak: real, x: real)
    requires peak > 0.0 && 0.0 <= x <= peak
    ensures 0.0 <= Drop(peak, x) <= 1.0
  {
  }

  /** One pass of the loop: the drop from the running peak is enough to keep the maximum over pairs. */
  lemma {:induction false} DrawdownStep(curve: seq<real>, x: real, peak: real, d: real, peak': real, d': real)
    requires IsHighest(curve, peak) && MaxDrawdown(curve, d) && 0.0 <= d <= 1.0 && peak > 0.0 && x >= 0.0
    requires peak' == (if x > peak then x else peak)
    requires d' == if Drop(peak', x) > d then Drop(peak', x) else d
    ensures IsHighest(curve + [x], peak') && MaxDrawdown(curve + [x], d') && 0.0 <= d' <= 1.0 && peak' > 0.0
  {
    DropWithinOne(peak', x);
    HighestStep(curve, x, peak, peak');
    BoundStep(curve, x, peak', d, d');
    if d' == d {
      AttainedLater(curve, x, d);
    } else {
      PeakDrop(curve + [x], peak', d');
    }
  }

  lemma HighestStep(curve: seq<real>, x: real, peak: real, peak': real)
    requires IsHighest(curve, peak) && peak' == if x > peak then x else peak
    ensures IsHighest(curve + [x], peak')
  {
    var c := curve + [x];
    var i :| 0 <= i < |curve| && curve[i] == peak;
    assert c[i] == peak && c[|curve|] == x;
  }

  lemma {:induction false} BoundStep(curve: seq<real>, x: real, peak: real, d: real, d': real)
    requires BoundsDrops(curve, d) && d <= d' && x >= 0.0 && peak > 0.0
    requires IsHighest(curve + [x], peak) && Drop(peak, x) <= d'
    ensures BoundsDrops(curve + [x], d')
  {
    var c := curve + [x];
    forall i, j | 0 <= i <= j < |c| && c[i] > 0.0 ensures Drop(c[i], c[j]) <= d' {
      if j < |curve| {
        assert Drop(curve[i], curve[j]) <= d;
      } else {
        DropGrowsWithPeak(c[i], x, peak);
      }
    }
  }

  lemma PeakDrop(c: seq<real>, peak: real, d: real)
    requires |c| > 0 && peak in c && peak > 0.0 && Drop(peak, c[|c| - 1]) == d
    ensures AttainsDrop(c, d)
  {
    var i :| 0 <= i < |c| && c[i] == peak;
    assert Drop(c[i], c[|c| - 1]) == d;
  }

  lemma AttainedLater(curve: seq<real>, x: real, d: real)
    requires AttainsDrop(curve, d)
    ensures AttainsDrop(curve + [x], d)
  {
    var i, j :| 0 <= i <= j < |curve| && curve[i] > 0.0 && Drop(curve[i], curve[j]) == d;
    var c := curve + [x];
    assert Drop(c[i], c[j]) == d;
  }

  /** The maximum over pairs is one number. */
  lemma MaxDrawdownIsUnique(curve: seq<real>, d: real, d': real)
    requires MaxDrawdown(curve, d) && MaxDrawdown(curve, d')
    ensures d == d'
  {
    var i, j :| 0 <= i <= j < |curve| && curve[i] > 0.0 && Drop(curve[i], curve[j]) == d;
    var k, l :| 0 <= k <= l < |curve| && curve[k] > 0.0 && Drop(curve[k], curve[l]) == d';
    assert Drop(curve[i], curve[j]) <= d' && Drop(curve[k], curve[l]) <= d;
  }

  // ----- Metrics -----

  function CountWins(lev: seq<real>): nat {
    if lev == [] then 0 else CountWins(lev[..|lev| - 1]) + if lev[|lev| - 1] > 0.0 then 1 else 0
  }

  datatype Metrics = Metrics(winRate: real, avgPnl: real, maxDd: real, nTrades: nat)

  /** The loop over equity, peak and drawdown. */
  method TraceEquity(lev: seq<real>) returns (equity: real, peak: real, maxDd: real)
    requires NoneBelowMinusOne(lev)
    ensures equity == Curve(lev)[|lev|] && IsHighest(Curve(lev), peak)
    ensures MaxDrawdown(Curve(lev), maxDd) && 0.0 <= maxDd <= 1.0
  {
    equity, peak, maxDd := 1.0, 1.0, 0.0;
    StartOfCurve();
    assert lev[..0] == [];
    var k := 0;
    while k < |lev|
      invariant 0 <= k <= |lev|
      invariant equity == Curve(lev[..k])[k] && equity >= 0.0 && peak > 0.0
      invariant IsHighest(Curve(lev[..k]), peak)
      invariant MaxDrawdown(Curve(lev[..k]), maxDd) && 0.0 <= maxDd <= 1.0
    {
      ghost var before, oldPeak, oldDd, oldEquity := Curve(lev[..k]), peak, maxDd, equity;
      equity := equity * (1.0 + lev[k]);
      assert equity == Grow(oldEquity, lev[k]);
      CurveExtends(lev, k, oldEquity);
      if equity > peak {
        peak := equity;
      }
      var dd := (peak - equity) / peak;
      if dd > maxDd {
        maxDd := dd;
      }
      assert dd == Drop(peak, equity);
      DrawdownStep(before, equity, oldPeak, oldDd, peak, maxDd);
      k := k + 1;
    }
    assert lev[..k] == lev;
  }

  lemma StartOfCurve()
    ensures Curve([]) == [1.0] && IsHighest([1.0], 1.0) && MaxDrawdown([1.0], 0.0)
  {
    assert [1.0][0] == 1.0 && Drop([1.0][0], [1.0][0]) == 0.0;
  }

  lemma CurveExtends(lev: seq<real>, k: nat, equity: real)
    requires k < |lev| && equity == Curve(lev[..k])[k] && equity >= 0.0 && lev[k] >= -1.0
    ensures Curve(lev[..k + 1]) == Curve(lev[..k]) + [Grow(equity, lev[k])]
    ensures Grow(equity, lev[k]) >= 0.0
  {
    var xs := lev[..k + 1];
    assert xs[..|xs| - 1] == lev[..k] && |xs| == k + 1 && xs[k] == lev[k];
    GrowSign(equity, lev[k]);
  }

  /** The first loop: apply leverage and clamp liquidations, counting wins and summing on the way. */
  method ApplyLeverage(pnls: seq<real>, leverage: real) returns (lev: seq<real>, wins: nat, total: real)
    ensures lev == LeveragedAll(pnls, leverage) && wins == CountWins(lev) && total == Sum(lev)
  {
    lev, wins, total := [], 0, 0.0;
    var i := 0;
    while i < |pnls|
      invariant 0 <= i <= |pnls|
      invariant lev == LeveragedAll(pnls, leverage)[..i]
      invariant wins == CountWins(lev) && total == Sum(lev)
    {
      var lp := pnls[i] * leverage;
      if lp <= -1.0 {
        lp := -1.0;
      }
      assert lp == LeveragedAll(pnls, leverage)[i];
      assert (lev + [lp])[..i] == lev;
      lev := lev + [lp];
      if lp > 0.0 {
        wins := wins + 1;
      }
      total := total + lp;
      i := i + 1;
    }
  }

  /** The reported drawdown is the negated maximum over all pairs of the leveraged curve. */
  method ComputeMetrics(pnls: seq<real>, leverage: real) returns (m: Metrics)
    ensures pnls == [] ==> m == Metrics(0.0, 0.0, 0.0, 0)
    ensures pnls != [] ==>
      var lev := LeveragedAll(pnls, leverage);
      && MaxDrawdown(Curve(lev), -m.maxDd) && -1.0 <= m.maxDd <= 0.0
      && m.winRate == CountWins(lev) as real / |pnls| as real
      && m.avgPnl == Sum(lev) / |pnls| as real
      && m.nTrades == |pnls|
  {
    if pnls == [] {
      return Metrics(0.0, 0.0, 0.0, 0);
    }
    var lev, wins, total := ApplyLeverage(pnls, leverage);
    var n := |lev|;
    var _, _, maxDd := TraceEquity(lev);
    m := Metrics(wins as real / n as real, total / n as real, -maxDd, n);
  }
}
