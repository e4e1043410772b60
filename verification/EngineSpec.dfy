/** papertrade/engine.py as a state machine. Two handlers, one for signals and one for mark prices,
    share the account, the last marks and the breakers. Every stretch of code between two awaits is
    one step; publishing appends to a log and then yields, which is where the other handler can run.
    A run is any sequence of events; an event that its handler is not ready for leaves the state as
    it is, so quantifying over event sequences quantifies over all interleavings. */
module EngineSpec {
  import opened Options
  import opened Messages
  import opened TradeMath
  import opened PaperAccount
  import opened Breakers
  import opened Guards

  datatype Config = Config(risk: RiskConfig, taker: real, mmr: real) {
    function DailyThreshold(): real {
      risk.startingBalance * risk.dailyLossPct
    }
  }

  const MAX_HOLD_SECONDS := 21600.0

  /** A close in progress: the position is already out of the account. */
  datatype Closing = Closing(pos: Position, exitPrice: real, reason: CloseReason, netPnl: real)

  /** Where the signal handler is suspended. `Crashed` is the state after an uncaught exception. */
  datatype SignalTask =
    | SignalIdle
    | SignalClosing(sig: Signal, c: Closing)    // awaiting the publication of trade.closed
    | SignalTripped(sig: Signal, c: Closing)    // awaiting the publication of circuit.tripped
    | SignalReopening(sig: Signal)              // awaiting the publication of the closing update
    | SignalExecuted(symbol: Symbol)            // awaiting the publication of trade.executed
    | SignalCrashed

  datatype MarkTask =
    | MarkIdle
    | MarkClosing(c: Closing)
    | MarkTripped(c: Closing)
    | MarkCrashed

  datatype State = State(
    acct: AccountState, marks: map<Symbol, real>, daily: DailyState, dd: DrawdownState,
    trades: seq<TradeMsg>, updates: seq<PositionUpdate>, vetoes: seq<RiskVeto>, circuits: seq<CircuitTripped>,
    sig: SignalTask, mark: MarkTask)

  function Initial(cfg: Config): State {
    State(AccountState(cfg.risk.startingBalance, map[]), map[], FRESH_DAILY, FRESH_DRAWDOWN,
          [], [], [], [], SignalIdle, MarkIdle)
  }

  datatype Event =
    | SignalArrives(signal: Signal, now: real)
    | SignalResumes(now: real)
    | MarkArrives(symbol: Symbol, price: real, now: real)
    | MarkResumes
    | BreakersReset

  // ----- Closing a position -----

  function CloseFor(cfg: Config, s: State, symbol: Symbol, exitPrice: real, reason: CloseReason): Closing
    requires symbol in s.acct.positions
  {
    var pos := s.acct.positions[symbol];
    Closing(pos, exitPrice, reason, s.acct.NetPnl(symbol, exitPrice, ExitFee(pos.qty, exitPrice, cfg.taker)))
  }

  function ClosedMsg(cfg: Config, symbol: Symbol, c: Closing): TradeMsg {
    Closed(c.pos.cid, symbol, c.pos.side, c.exitPrice, c.reason, c.netPnl, c.pos.fundingPaid,
           ExitFee(c.pos.qty, c.exitPrice, cfg.taker))
  }

  /** Takes the position out of the account and publishes trade.closed. */
  function BeginClose(cfg: Config, s: State, symbol: Symbol, exitPrice: real, reason: CloseReason): State
    requires symbol in s.acct.positions
  {
    var c := CloseFor(cfg, s, symbol, exitPrice, reason);
    s.(acct := s.acct.Close(symbol, exitPrice, ExitFee(c.pos.qty, exitPrice, cfg.taker)),
       trades := s.trades + [ClosedMsg(cfg, symbol, c)])
  }

  ghost function FeedBreakers(cfg: Config, s: State, c: Closing): State {
    s.(daily := s.daily.UpdatePnl(cfg.DailyThreshold(), c.netPnl),
       dd := s.dd.UpdateEquity(cfg.risk.maxDrawdownPct, s.acct.Equity()))
  }

  function PublishCircuit(cfg: Config, s: State): State {
    s.(circuits := s.circuits + [CircuitTripped("daily_loss", s.daily.lastValue, cfg.DailyThreshold())])
  }

  function ClosedUpdate(c: Closing): PositionUpdate {
    PositionUpdate(c.pos.symbol, c.pos.side, c.pos.qty, c.pos.entryPrice, c.exitPrice, 0.0, 0.0,
                   c.pos.liqPrice, true, Some(c.reason))
  }

  function OpenUpdate(pos: Position): PositionUpdate {
    PositionUpdate(pos.symbol, pos.side, pos.qty, pos.entryPrice, pos.markPrice, pos.UnrealizedPnl(),
                   pos.margin, pos.liqPrice, false, None)
  }

  /** The end of a close in the signal handler. A reason the message type does not admit raises. */
  function FinishSignalClose(s: State, sig: Signal, c: Closing): State {
    if Admissible(c.reason)
    then s.(updates := s.updates + [ClosedUpdate(c)], sig := SignalReopening(sig))
    else s.(sig := SignalCrashed)
  }

  function FinishMarkClose(s: State, c: Closing): State {
    if Admissible(c.reason)
    then s.(updates := s.updates + [ClosedUpdate(c)], mark := MarkIdle)
    else s.(mark := MarkCrashed)
  }

  /** Publishes the current view of an open position; a position gone meanwhile publishes nothing. */
  function PublishUpdate(s: State, symbol: Symbol): State {
    if symbol in s.acct.positions
    then s.(updates := s.updates + [OpenUpdate(s.acct.positions[symbol])])
    else s
  }

  // ----- Opening a position -----

  /** The best available fill: an explicit entry, else the last nonzero mark, else the middle of the
      stop-loss and take-profit levels. */
  function FillPrice(marks: map<Symbol, real>, sig: Signal): real {
    match sig.entryHint
    case Some(e) => e
    case None =>
      if sig.symbol in marks && marks[sig.symbol] != 0.0 then marks[sig.symbol] else (sig.sl + sig.tp) / 2.0
  }

  function NewPosition(cfg: Config, sig: Signal, entry: real, now: real): Position
    requires entry > 0.0 && sig.leverage != 0
  {
    Position(sig.symbol, sig.side, Qty(sig.sizeUsd, entry), entry, sig.leverage, sig.sl, sig.tp,
             IsolatedMargin(sig.sizeUsd, sig.leverage), LiqPrice(entry, sig.side, sig.leverage, cfg.mmr),
             EntryFee(sig.sizeUsd, cfg.taker), sig.cid, 0.0, 0.0, now)
  }

  function ExecutedMsg(pos: Position): TradeMsg {
    Executed(pos.cid, pos.symbol, pos.side, pos.qty, pos.entryPrice, pos.leverage, pos.sl, pos.tp, pos.fees)
  }

  function Veto(s: State, sig: Signal, breakerName: string): State {
    s.(vetoes := s.vetoes + [RiskVeto(sig.cid, breakerName)], sig := SignalIdle)
  }

  /** Breakers, guards, fill. A fill price that is not positive, or a leverage of zero, raises. */
  ghost function TryOpen(cfg: Config, s: State, sig: Signal, now: real): State {
    if s.daily.tripped || s.dd.tripped then Veto(s, sig, "daily_loss_or_drawdown")
    else
      match Check(cfg.risk, |s.acct.positions|, s.acct.Equity(), sig)
      case Denied(name) => Veto(s, sig, name)
      case Allowed =>
        var entry := FillPrice(s.marks, sig);
        if entry <= 0.0 || sig.leverage == 0 then s.(sig := SignalCrashed)
        else
          var pos := NewPosition(cfg, sig, entry, now);
          s.(acct := s.acct.Open(pos), trades := s.trades + [ExecutedMsg(pos)], sig := SignalExecuted(sig.symbol))
  }

  // ----- The steps -----

  ghost function OnSignal(cfg: Config, s: State, sig: Signal, now: real): State {
    if sig.symbol in s.acct.positions then
      var existing := s.acct.positions[sig.symbol];
      if existing.side != sig.side then
        var exitPrice := if sig.symbol in s.marks then s.marks[sig.symbol] else existing.entryPrice;
        BeginClose(cfg, s, sig.symbol, exitPrice, DirectionFlip)
          .(sig := SignalClosing(sig, CloseFor(cfg, s, sig.symbol, exitPrice, DirectionFlip)))
      else s
    else TryOpen(cfg, s, sig, now)
  }

  ghost function OnSignalResume(cfg: Config, s: State, now: real): State {
    match s.sig
    case SignalClosing(sig, c) =>
      var t := FeedBreakers(cfg, s, c);
      if t.daily.tripped then PublishCircuit(cfg, t).(sig := SignalTripped(sig, c))
      else FinishSignalClose(t, sig, c)
    case SignalTripped(sig, c) => FinishSignalClose(s, sig, c)
    case SignalReopening(sig) => TryOpen(cfg, s, sig, now)
    case SignalExecuted(symbol) => PublishUpdate(s, symbol).(sig := SignalIdle)
    case SignalIdle => s
    case SignalCrashed => s
  }

  predicate StopHit(pos: Position, price: real) {
    match pos.side
    case Long => price <= pos.sl
    case Short => price >= pos.sl
  }

  predicate ProfitHit(pos: Position, price: real) {
    match pos.side
    case Long => price >= pos.tp
    case Short => price <= pos.tp
  }

  predicate LiquidationHit(pos: Position, price: real) {
    match pos.side
    case Long => price <= pos.liqPrice
    case Short => price >= pos.liqPrice
  }

  /** What a mark does to an open position: age first, then liquidation, stop-loss, take-profit. */
  function ExitFor(pos: Position, price: real, now: real): Option<(real, CloseReason)> {
    if now - pos.openedAt > MAX_HOLD_SECONDS then Some((price, MaxHold))
    else if LiquidationHit(pos, price) then Some((pos.liqPrice, Liquidation))
    else if StopHit(pos, price) then Some((pos.sl, StopLoss))
    else if ProfitHit(pos, price) then Some((pos.tp, TakeProfit))
    else None
  }

  function OnMark(cfg: Config, s: State, symbol: Symbol, price: real, now: real): State {
    var t := s.(marks := s.marks[symbol := price], acct := s.acct.UpdateMark(symbol, price));
    if symbol !in t.acct.positions then t
    else
      match ExitFor(t.acct.positions[symbol], price, now)
      case None => PublishUpdate(t, symbol)
      case Some((exitPrice, reason)) =>
        BeginClose(cfg, t, symbol, exitPrice, reason)
          .(mark := MarkClosing(CloseFor(cfg, t, symbol, exitPrice, reason)))
  }

  ghost function OnMarkResume(cfg: Config, s: State): State {
    match s.mark
    case MarkClosing(c) =>
      var t := FeedBreakers(cfg, s, c);
      if t.daily.tripped then PublishCircuit(cfg, t).(mark := MarkTripped(c))
      else FinishMarkClose(t, c)
    case MarkTripped(c) => FinishMarkClose(s, c)
    case MarkIdle => s
    case MarkCrashed => s
  }

  function OnReset(s: State): State {
    s.(daily := FRESH_DAILY, dd := FRESH_DRAWDOWN)
  }

  ghost function Next(cfg: Config, s: State, ev: Event): State {
    match ev
    case SignalArrives(sig, now) => if s.sig.SignalIdle? then OnSignal(cfg, s, sig, now) else s
    case SignalResumes(now) => OnSignalResume(cfg, s, now)
    case MarkArrives(symbol, price, now) => if s.mark.MarkIdle? then OnMark(cfg, s, symbol, price, now) else s
    case MarkResumes => OnMarkResume(cfg, s)
    case BreakersReset => OnReset(s)
  }

  ghost function Run(cfg: Config, events: seq<Event>): State {
    if events == [] then Initial(cfg)
    else Next(cfg, Run(cfg, events[..|events| - 1]), events[|events| - 1])
  }

  /** One event at a time through a given sequence. */
  lemma {:induction false} RunStep(cfg: Config, events: seq<Event>, k: nat)
    requires k < |events|
    ensures Run(cfg, events[..k + 1]) == Next(cfg, Run(cfg, events[..k]), events[k])
  {
    assert events[..k + 1][..k] == events[..k];
  }

  /** A run continued by `more`, at its last event. */
  lemma {:induction false} RunAppend(cfg: Config, events: seq<Event>, more: seq<Event>)
    requires more != []
    ensures Run(cfg, events + more) == Next(cfg, Run(cfg, events + more[..|more| - 1]), more[|more| - 1])
  {
    assert (events + more)[..|events + more| - 1] == events + more[..|more| - 1];
  }

  // ----- What a step adds to the trade log -----

  ghost predicate Opens(cfg: Config, s: State, ev: Event) {
    |Next(cfg, s, ev).trades| > |s.trades| && Next(cfg, s, ev).trades[|s.trades|].Executed?
  }

  ghost predicate Closes(cfg: Config, s: State, ev: Event) {
    |Next(cfg, s, ev).trades| > |s.trades| && Next(cfg, s, ev).trades[|s.trades|].Closed?
  }
}
