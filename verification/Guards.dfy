/** risk/guards.py: the stateless checks a signal must pass before it may open a position. */
module Guards {
  import opened Messages

  datatype RiskConfig = RiskConfig(symbols: seq<Symbol>, startingBalance: real, maxPositionPct: real,
                                   maxConcurrent: int, maxLeverage: int, dailyLossPct: real, maxDrawdownPct: real)

  datatype GuardResult = Allowed | Denied(breakerName: string)

  /** The guards in the order in which they are consulted. */
  const GUARD_NAMES: seq<string> :=
    ["symbol_guard", "concurrent_positions_guard", "position_size_guard", "leverage_guard", "sl_tp_guard"]

  predicate Passes(cfg: RiskConfig, openPositions: int, equity: real, signal: Signal, k: nat) {
    match k
    case 0 => signal.symbol in cfg.symbols
    case 1 => openPositions < cfg.maxConcurrent
    case 2 => signal.sizeUsd <= equity * cfg.maxPositionPct
    case 3 => signal.leverage <= cfg.maxLeverage
    case _ => signal.sl > 0.0 && signal.tp > 0.0
  }

  /** The checks run in this order and the first one that fails names the veto. */
  function Check(cfg: RiskConfig, openPositions: int, equity: real, signal: Signal): (r: GuardResult)
    ensures r.Allowed? <==>
      && signal.symbol in cfg.symbols
      && openPositions < cfg.maxConcurrent
      && signal.sizeUsd <= equity * cfg.maxPositionPct
      && signal.leverage <= cfg.maxLeverage
      && signal.sl > 0.0 && signal.tp > 0.0
  {
    if signal.symbol !in cfg.symbols then Denied("symbol_guard")
    else if openPositions >= cfg.maxConcurrent then Denied("concurrent_positions_guard")
    else if signal.sizeUsd > equity * cfg.maxPositionPct then Denied("position_size_guard")
    else if signal.leverage > cfg.maxLeverage then Denied("leverage_guard")
    else if signal.sl <= 0.0 || signal.tp <= 0.0 then Denied("sl_tp_guard")
    else Allowed
  }

  /** A signal that fails is named after the first guard it fails. */
  lemma FirstFailureNamesVeto(cfg: RiskConfig, openPositions: int, equity: real, signal: Signal, k: nat)
    requires k < |GUARD_NAMES| && !Passes(cfg, openPositions, equity, signal, k)
    requires forall j :: 0 <= j < k ==> Passes(cfg, openPositions, equity, signal, j)
    ensures Check(cfg, openPositions, equity, signal) == Denied(GUARD_NAMES[k])
  {
    if k > 0 { assert Passes(cfg, openPositions, equity, signal, 0); }
    if k > 1 { assert Passes(cfg, openPositions, equity, signal, 1); }
    if k > 2 { assert Passes(cfg, openPositions, equity, signal, 2); }
    if k > 3 { assert Passes(cfg, openPositions, equity, signal, 3); }
  }
}
