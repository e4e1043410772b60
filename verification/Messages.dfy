/** The stock Some/None datatype. */
module Options {
  datatype Option<+T> = None | Some(value: T)
}

/** Sums of reals. */
module Sums {

  function Sum(xs: seq<real>): real {
    if xs == [] then 0.0 else Sum(xs[..|xs| - 1]) + xs[|xs| - 1]
  }
}

/** The bus messages the paper-trade engine consumes and produces.
    Each topic is modelled as an append-only log that subscribers read in order. */
module Messages {
  import opened Options

  type Symbol = string
  type Cid = string

  datatype Side = Long | Short

  /** `entryHint` is the number found under "entry" when the reasoning text is a JSON object. */
  datatype Signal = Signal(cid: Cid, symbol: Symbol, side: Side, sizeUsd: real, sl: real, tp: real,
                           leverage: int, entryHint: Option<real>)

  datatype CloseReason = StopLoss | TakeProfit | Liquidation | Manual | DirectionFlip | MaxHold

  /** The values the `close_reason` field of a position update admits; building the message
      with any other value raises a validation error. */
  predicate Admissible(reason: CloseReason) {
    reason in {StopLoss, TakeProfit, Liquidation, Manual}
  }

  datatype TradeMsg =
    | Executed(cid: Cid, symbol: Symbol, side: Side, qty: real, entryPrice: real, leverage: int,
               sl: real, tp: real, fees: real)
    | Closed(cid: Cid, symbol: Symbol, side: Side, exitPrice: real, reason: CloseReason,
             realizedPnl: real, fundingPaid: real, exitFees: real)

  datatype PositionUpdate = PositionUpdate(symbol: Symbol, side: Side, qty: real, entryPrice: real,
                                           markPrice: real, unrealizedPnl: real, isolatedMargin: real,
                                           liqPrice: real, isClosed: bool, closeReason: Option<CloseReason>)

  datatype RiskVeto = RiskVeto(cid: Cid, breakerName: string)

  datatype CircuitTripped = CircuitTripped(breakerName: string, value: real, threshold: real)
}
