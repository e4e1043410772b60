/** The trade formulas of papertrade/math.py over exact reals, and the facts about the
    liquidation price that the loss bound of the engine rests on. */
module TradeMath {
  import opened Messages

  function Qty(sizeUsd: real, entryPrice: real): real
    requires entryPrice > 0.0
  {
    sizeUsd / entryPrice
  }

  function IsolatedMargin(sizeUsd: real, leverage: int): real
    requires leverage != 0
  {
    sizeUsd / leverage as real
  }

  function LiqPrice(entryPrice: real, side: Side, leverage: int, mmr: real): real
    requires leverage != 0
  {
    match side
    case Long => entryPrice * (1.0 - 1.0 / leverage as real + mmr)
    case Short => entryPrice * (1.0 + 1.0 / leverage as real - mmr)
  }

  /** Unrealized and realized PnL are the same formula at a different price. */
  function Pnl(qty: real, entryPrice: real, price: real, side: Side): real {
    match side
    case Long => qty * (price - entryPrice)
    case Short => qty * (entryPrice - price)
  }

  function EntryFee(sizeUsd: real, takerRate: real): real {
    sizeUsd * takerRate
  }

  function ExitFee(qty: real, exitPrice: real, takerRate: real): real {
    qty * exitPrice * takerRate
  }

  /** What closing at `price` pays back, margin included, for a position of `qty` at `entryPrice`. */
  function Credit(qty: real, entryPrice: real, price: real, side: Side, margin: real, takerRate: real): real {
    margin + Pnl(qty, entryPrice, price, side) - ExitFee(qty, price, takerRate)
  }

  /** Leverage and fee rates for which the maintenance margin covers the exit fee at liquidation. */
  predicate LeverageOk(leverage: int, mmr: real, takerRate: real) {
    && leverage >= 1
    && takerRate >= 0.0
    && 1.0 / leverage as real > mmr
    && takerRate * (1.0 + 1.0 / leverage as real - mmr) <= mmr
  }

  /** `price` has not gone strictly past the liquidation price `liq`. */
  predicate NotPast(side: Side, price: real, liq: real) {
    match side
    case Long => price >= liq
    case Short => price <= liq
  }

  /** `price` has not even reached the liquidation price `liq`. */
  predicate Inside(side: Side, price: real, liq: real) {
    match side
    case Long => price > liq
    case Short => price < liq
  }

  lemma QtyTimesEntry(sizeUsd: real, entryPrice: real)
    requires entryPrice > 0.0
    ensures Qty(sizeUsd, entryPrice) * entryPrice == sizeUsd
  {
  }

  /** The credit per unit of quantity, which is linear in the exit price. */
  function CreditRate(entryPrice: real, price: real, side: Side, leverage: int, takerRate: real): real
    requires leverage != 0
  {
    match side
    case Long => price * (1.0 - takerRate) - entryPrice * (1.0 - 1.0 / leverage as real)
    case Short => entryPrice * (1.0 + 1.0 / leverage as real) - price * (1.0 + takerRate)
  }

  /** With the margin the engine locks, closing at `price` returns `qty` times the credit rate, so for
      a positive quantity the margin covers loss and exit fee exactly when the rate is nonnegative. */
  lemma CreditIsQtyTimesRate(qty: real, entryPrice: real, price: real, side: Side, leverage: int, takerRate: real)
    requires leverage != 0
    ensures var credit := Credit(qty, entryPrice, price, side, IsolatedMargin(qty * entryPrice, leverage), takerRate);
            var rate := CreditRate(entryPrice, price, side, leverage, takerRate);
            && credit == qty * rate
            && (qty > 0.0 ==> (credit >= 0.0 <==> rate >= 0.0))
            && (qty >= 0.0 && rate >= 0.0 ==> credit >= 0.0)
  {
    var k := 1.0 / leverage as real;
    assert IsolatedMargin(qty * entryPrice, leverage) == qty * entryPrice * k;
    ScaledSign(qty, CreditRate(entryPrice, price, side, leverage, takerRate));
  }

  lemma ScaledSign(q: real, r: real)
    ensures q >= 0.0 && r >= 0.0 ==> q * r >= 0.0
    ensures q > 0.0 ==> (q * r >= 0.0 <==> r >= 0.0)
  {
  }

  /** At any price not past the liquidation price the credit rate is nonnegative: this is where the
      maintenance margin pays for the exit fee. */
  lemma {:induction false} RateAtLiquidation(entryPrice: real, price: real, side: Side, leverage: int, mmr: real, takerRate: real)
    requires entryPrice > 0.0 && LeverageOk(leverage, mmr, takerRate)
    requires NotPast(side, price, LiqPrice(entryPrice, side, leverage, mmr))
    ensures CreditRate(entryPrice, price, side, leverage, takerRate) >= 0.0
  {
    var k := 1.0 / leverage as real;
    assert 0.0 < k <= 1.0;
    var t := takerRate;
    match side
    case Long =>
      TakerBelowOne(k, mmr, t);
      Monotone(1.0 - t, entryPrice * (1.0 - k + mmr), price);
      Monotone(entryPrice, 0.0, mmr - t * (1.0 - k + mmr));
      assert entryPrice * (1.0 - k + mmr) * (1.0 - t)
          == entryPrice * (1.0 - k) + entryPrice * (mmr - t * (1.0 - k + mmr));
    case Short =>
      Monotone(1.0 + t, price, entryPrice * (1.0 + k - mmr));
      Monotone(entryPrice, 0.0, mmr - t * (1.0 + k - mmr));
      assert entryPrice * (1.0 + k - mmr) * (1.0 + t)
          == entryPrice * (1.0 + k) - entryPrice * (mmr - t * (1.0 + k - mmr));
  }

  lemma Monotone(c: real, a: real, b: real)
    requires c >= 0.0 && a <= b
    ensures a * c <= b * c && c * a <= c * b
  {
  }

  lemma TakerBelowOne(k: real, mmr: real, t: real)
    requires 0.0 < k <= 1.0 && mmr < k && t >= 0.0 && t * (1.0 + k - mmr) <= mmr
    ensures t <= 1.0 && t * (1.0 - k + mmr) <= mmr
  {
    var d := k - mmr;
    var td := t * d;
    assert td >= 0.0;
    assert t * (1.0 + k - mmr) == t + td;
    assert t * (1.0 - k + mmr) == t - td by {
      assert 1.0 - k + mmr == 1.0 - d;
      assert t * (1.0 - d) == t - td;
    }
  }

  /** An entry fill is strictly inside its own liquidation price. */
  lemma EntryInside(entryPrice: real, side: Side, leverage: int, mmr: real, takerRate: real)
    requires entryPrice > 0.0 && LeverageOk(leverage, mmr, takerRate)
    ensures Inside(side, entryPrice, LiqPrice(entryPrice, side, leverage, mmr))
  {
    var k := 1.0 / leverage as real;
    assert entryPrice * (k - mmr) > 0.0;
    assert entryPrice * (1.0 - k + mmr) == entryPrice - entryPrice * (k - mmr);
    assert entryPrice * (1.0 + k - mmr) == entryPrice + entryPrice * (k - mmr);
  }

  /** The default fee settings meet the condition for every leverage the default risk settings admit. */
  lemma DefaultFeesOk(leverage: int)
    requires 1 <= leverage <= 5
    ensures LeverageOk(leverage, 0.004, 0.0004)
  {
    assert leverage == 1 || leverage == 2 || leverage == 3 || leverage == 4 || leverage == 5;
  }
}
