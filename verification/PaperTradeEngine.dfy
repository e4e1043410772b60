/** The mutable engine. Each method is one stretch of the handlers between two awaits; what the
    coroutine keeps on its stack across the await is in `signalTask` and `markTask`. Every method is
    proved to take the step the state machine prescribes, so what is proved there about runs holds of
    any sequence of calls. */
module PaperTradeEngine {
  import opened Options
  import opened Messages
  import opened TradeMath
  import opened PaperAccount
  import opened Breakers
  import opened Guards
  import opened EngineSpec
  import opened EngineSafety

  class Engine {
    const cfg: Config
    const account: Account
    const dailyLoss: DailyLossBreaker
    const maxDrawdown: MaxDrawdownBreaker
    var lastMarks: map<Symbol, real>
    // the bus topics the engine writes to
    var trades: seq<TradeMsg>
    var updates: seq<PositionUpdate>
    var vetoes: seq<RiskVeto>
    var circuits: seq<CircuitTripped>
    var signalTask: SignalTask
    var markTask: MarkTask
    // every call so far
    ghost var events: seq<Event>

    ghost function State(): State
      reads this, account, dailyLoss, maxDrawdown
    {
      EngineSpec.State(account.State(), lastMarks, dailyLoss.State(), maxDrawdown.State(),
                       trades, updates, vetoes, circuits, signalTask, markTask)
    }

    ghost predicate BreakersValid()
      reads this, dailyLoss, maxDrawdown
    {
      && dailyLoss.Valid() && dailyLoss.threshold == cfg.DailyThreshold()
      && maxDrawdown.Valid() && maxDrawdown.thresholdPct == cfg.risk.maxDrawdownPct
    }

    /** The engine is in the state that its history of events leads to. */
    ghost predicate Valid()
      reads this, account, dailyLoss, maxDrawdown
    {
      BreakersValid() && State() == Run(cfg, events)
    }

    constructor (cfg: Config)
      ensures Valid() && events == [] && this.cfg == cfg
      ensures fresh(account) && fresh(dailyLoss) && fresh(maxDrawdown)
    {
      this.cfg := cfg;
      account := new Account(cfg.risk.startingBalance);
      dailyLoss := new DailyLossBreaker(cfg.risk.startingBalance, cfg.risk.dailyLossPct);
      maxDrawdown := new MaxDrawdownBreaker(cfg.risk.maxDrawdownPct);
      lastMarks, trades, updates, vetoes, circuits := map[], [], [], [], [];
      signalTask, markTask, events := SignalIdle, MarkIdle, [];
    }

    // ----- Pieces shared by the handlers -----

    method ClosePosition(symbol: Symbol, exitPrice: real, reason: CloseReason) returns (c: Closing)
      requires symbol in account.openPositions
      modifies this`trades, account
      ensures c == CloseFor(cfg, old(State()), symbol, exitPrice, reason)
      ensures State() == BeginClose(cfg, old(State()), symbol, exitPrice, reason)
    {
      var pos := account.openPositions[symbol];
      var exitFee := ExitFee(pos.qty, exitPrice, cfg.taker);
      var netPnl := account.Close(symbol, exitPrice, exitFee);
      trades := trades + [Closed(pos.cid, symbol, pos.side, exitPrice, reason, netPnl, pos.fundingPaid, exitFee)];
      c := Closing(pos, exitPrice, reason, netPnl);
    }

    /** Feeds both breakers and reports a tripped daily breaker on the bus. */
    method UpdateBreakers(c: Closing) returns (tripped: bool)
      requires BreakersValid()
      modifies this`circuits, dailyLoss, maxDrawdown
      ensures BreakersValid()
      ensures var t := FeedBreakers(cfg, old(State()), c);
              tripped == t.daily.tripped && State() == if tripped then PublishCircuit(cfg, t) else t
    {
      dailyLoss.UpdatePnl(c.netPnl);
      var equity := account.Equity();
      maxDrawdown.UpdateEquity(equity);
      tripped := dailyLoss.IsTripped();
      if tripped {
        circuits := circuits + [CircuitTripped("daily_loss", dailyLoss.lastValue,
                                               cfg.risk.startingBalance * cfg.risk.dailyLossPct)];
      }
    }

    method PublishPositionUpdate(symbol: Symbol)
      modifies this`updates
      ensures State() == PublishUpdate(old(State()), symbol)
    {
      if symbol in account.openPositions {
        var pos := account.openPositions[symbol];
        var unrealized := if pos.markPrice == 0.0 then 0.0 else Pnl(pos.qty, pos.entryPrice, pos.markPrice, pos.side);
        updates := updates + [PositionUpdate(pos.symbol, pos.side, pos.qty, pos.entryPrice, pos.markPrice,
                                             unrealized, pos.margin, pos.liqPrice, false, None)];
      }
    }

    /** The second half of signal processing, from the breaker check on. */
    method OpenIfAllowed(sig: Signal, now: real)
      requires BreakersValid()
      modifies this`trades, this`vetoes, this`signalTask, account
      ensures BreakersValid()
      ensures State() == TryOpen(cfg, old(State()), sig, now)
    {
      var daily := dailyLoss.IsTripped();
      var drawdown := maxDrawdown.IsTripped();
      if daily || drawdown {
        vetoes := vetoes + [RiskVeto(sig.cid, "daily_loss_or_drawdown")];
        signalTask := SignalIdle;
        return;
      }
      var equity := account.Equity();
      var verdict := Check(cfg.risk, |account.openPositions|, equity, sig);
      if verdict.Denied? {
        vetoes := vetoes + [RiskVeto(sig.cid, verdict.breakerName)];
        signalTask := SignalIdle;
        return;
      }
      var entry: real;
      if sig.entryHint.Some? {
        entry := sig.entryHint.value;
      } else if sig.symbol in lastMarks && lastMarks[sig.symbol] != 0.0 {
        entry := lastMarks[sig.symbol];
      } else {
        entry := (sig.sl + sig.tp) / 2.0;
      }
      if entry <= 0.0 || sig.leverage == 0 {
        signalTask := SignalCrashed;
        return;
      }
      var qty := Qty(sig.sizeUsd, entry);
      var margin := IsolatedMargin(sig.sizeUsd, sig.leverage);
      var liq := LiqPrice(entry, sig.side, sig.leverage, cfg.mmr);
      var fee := EntryFee(sig.sizeUsd, cfg.taker);
      account.Open(Position(sig.symbol, sig.side, qty, entry, sig.leverage, sig.sl, sig.tp, margin, liq, fee, sig.cid,
                            0.0, 0.0, now));
      trades := trades + [Executed(sig.cid, sig.symbol, sig.side, qty, entry, sig.leverage, sig.sl, sig.tp, fee)];
      signalTask := SignalExecuted(sig.symbol);
    }

    /** Builds and publishes the closing update, or stops the handler when that raises. */
    method FinishSignal(sig: Signal, c: Closing)
      modifies this`updates, this`signalTask
      ensures State() == FinishSignalClose(old(State()), sig, c)
    {
      if !Admissible(c.reason) {
        signalTask := SignalCrashed;
        return;
      }
      updates := updates + [PositionUpdate(c.pos.symbol, c.pos.side, c.pos.qty, c.pos.entryPrice, c.exitPrice, 0.0, 0.0,
                                           c.pos.liqPrice, true, Some(c.reason))];
      signalTask := SignalReopening(sig);
    }

    method FinishMark(c: Closing)
      modifies this`updates, this`markTask
      ensures State() == FinishMarkClose(old(State()), c)
    {
      if !Admissible(c.reason) {
        markTask := MarkCrashed;
        return;
      }
      updates := updates + [PositionUpdate(c.pos.symbol, c.pos.side, c.pos.qty, c.pos.entryPrice, c.exitPrice, 0.0, 0.0,
                                           c.pos.liqPrice, true, Some(c.reason))];
      markTask := MarkIdle;
    }

    // ----- The steps of the two handlers -----

    method ProcessSignal(sig: Signal, now: real)
      requires Valid() && signalTask.SignalIdle?
      modifies this, account, dailyLoss, maxDrawdown
      ensures Valid() && events == old(events) + [SignalArrives(sig, now)]
    {
      ghost var before := State();
      if sig.symbol in account.openPositions {
        var existing := account.openPositions[sig.symbol];
        if existing.side != sig.side {
          var exitPrice := if sig.symbol in lastMarks then lastMarks[sig.symbol] else existing.entryPrice;
          var c := ClosePosition(sig.symbol, exitPrice, DirectionFlip);
          signalTask := SignalClosing(sig, c);
        }
      } else {
        OpenIfAllowed(sig, now);
      }
      assert State() == OnSignal(cfg, before, sig, now);
      Record(SignalArrives(sig, now));
    }

    method ResumeSignal(now: real)
      requires Valid()
      modifies this, account, dailyLoss, maxDrawdown
      ensures Valid() && events == old(events) + [SignalResumes(now)]
    {
      ghost var before := State();
      match signalTask {
        case SignalClosing(sig, c) =>
          var tripped := UpdateBreakers(c);
          if tripped {
            signalTask := SignalTripped(sig, c);
          } else {
            FinishSignal(sig, c);
          }
        case SignalTripped(sig, c) =>
          FinishSignal(sig, c);
        case SignalReopening(sig) =>
          OpenIfAllowed(sig, now);
        case SignalExecuted(symbol) =>
          PublishPositionUpdate(symbol);
          signalTask := SignalIdle;
        case SignalIdle =>
        case SignalCrashed =>
      }
      assert State() == OnSignalResume(cfg, before, now);
      Record(SignalResumes(now));
    }

    method ProcessMark(symbol: Symbol, price: real, now: real)
      requires Valid() && markTask.MarkIdle?
      modifies this, account, dailyLoss, maxDrawdown
      ensures Valid() && events == old(events) + [MarkArrives(symbol, price, now)]
    {
      ghost var before := State();
      lastMarks := lastMarks[symbol := price];
      if symbol in account.openPositions {
        account.UpdateMark(symbol, price);
        var pos := account.openPositions[symbol];
        if now - pos.openedAt > MAX_HOLD_SECONDS {
          var c := ClosePosition(symbol, price, MaxHold);
          markTask := MarkClosing(c);
        } else if LiquidationHit(pos, price) {
          var c := ClosePosition(symbol, pos.liqPrice, Liquidation);
          markTask := MarkClosing(c);
        } else if StopHit(pos, price) {
          var c := ClosePosition(symbol, pos.sl, StopLoss);
          markTask := MarkClosing(c);
        } else if ProfitHit(pos, price) {
          var c := ClosePosition(symbol, pos.tp, TakeProfit);
          markTask := MarkClosing(c);
        } else {
          PublishPositionUpdate(symbol);
        }
      }
      assert State() == OnMark(cfg, before, symbol, price, now);
      Record(MarkArrives(symbol, price, now));
    }

    method ResumeMark()
      requires Valid()
      modifies this, account, dailyLoss, maxDrawdown
      ensures Valid() && events == old(events) + [MarkResumes]
    {
      ghost var before := State();
      match markTask {
        case MarkClosing(c) =>
          var tripped := UpdateBreakers(c);
          if tripped {
            markTask := MarkTripped(c);
          } else {
            FinishMark(c);
          }
        case MarkTripped(c) =>
          FinishMark(c);
        case MarkIdle =>
        case MarkCrashed =>
      }
      assert State() == OnMarkResume(cfg, before);
      Record(MarkResumes);
    }

    method ResetBreakers()
      requires Valid()
      modifies this, dailyLoss, maxDrawdown
      ensures Valid() && events == old(events) + [BreakersReset]
    {
      dailyLoss.ClearState();
      maxDrawdown.ClearState();
      Record(BreakersReset);
    }

    ghost method Record(ev: Event)
      requires BreakersValid() && State() == Next(cfg, Run(cfg, events), ev)
      modifies this`events
      ensures Valid() && events == old(events) + [ev]
    {
      events := events + [ev];
      assert events[..|events| - 1] == old(events);
    }

    /** A read-only audit: whatever calls were made, money is conserved and the cap is kept. */
    method OpenCount() returns (n: nat)
      requires Valid()
      ensures n == |State().acct.positions| && n <= Cap(cfg)
      ensures State().acct.balance + Total(Margin, State().acct.positions) + Total(Fees, State().acct.positions)
           == cfg.risk.startingBalance + SumNet(trades)
    {
      RunSound(cfg, events);
      n := |account.openPositions|;
    }
  }
}
