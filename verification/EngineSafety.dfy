/** What holds in every reachable state of the engine, crashed handlers included: money is conserved,
    the trade log is a well-formed order book replay, and every open passed its checks. */
module EngineSafety {
  import opened Options
  import opened Messages
  import opened TradeMath
  import opened PaperAccount
  import opened Breakers
  import opened EngineSpec

  /** The three things a step can do to the account and the trade log. */
  datatype Effect =
    | Quiet(symbol: Symbol, price: real)
    | Opened(sig: Signal, now: real)
    | Exited(symbol: Symbol, exitPrice: real, reason: CloseReason)

  /** All that a signal must satisfy at the very moment its position is opened. */
  ghost predicate OpenAllowed(cfg: Config, s: State, sig: Signal) {
    && !s.daily.tripped && !s.dd.tripped
    && sig.symbol in cfg.risk.symbols
    && |s.acct.positions| < cfg.risk.maxConcurrent
    && sig.sizeUsd <= s.acct.Equity() * cfg.risk.maxPositionPct
    && sig.leverage <= cfg.risk.maxLeverage && sig.leverage != 0
    && sig.sl > 0.0 && sig.tp > 0.0
    && FillPrice(s.marks, sig) > 0.0
  }

  ghost predicate HasEffect(cfg: Config, s: State, s': State, e: Effect) {
    match e
    case Quiet(symbol, price) =>
      s'.trades == s.trades && (s'.acct == s.acct || s'.acct == s.acct.UpdateMark(symbol, price))
    case Opened(sig, now) =>
      && OpenAllowed(cfg, s, sig)
      && (var pos := NewPosition(cfg, sig, FillPrice(s.marks, sig), now);
          s'.acct == s.acct.Open(pos) && s'.trades == s.trades + [ExecutedMsg(pos)])
    case Exited(symbol, x, reason) =>
      && symbol in s.acct.positions
      && s'.acct == s.acct.Close(symbol, x, ExitFee(s.acct.positions[symbol].qty, x, cfg.taker))
      && s'.trades == s.trades + [ClosedMsg(cfg, symbol, CloseFor(cfg, s, symbol, x, reason))]
  }

  lemma TryOpenEffect(cfg: Config, s: State, sig: Signal, now: real) returns (e: Effect)
    ensures HasEffect(cfg, s, TryOpen(cfg, s, sig, now), e)
    ensures e.Quiet? || e == Opened(sig, now)
  {
    e := if TryOpen(cfg, s, sig, now).trades == s.trades then Quiet("", 0.0) else Opened(sig, now);
  }

  lemma OnMarkEffect(cfg: Config, s: State, symbol: Symbol, price: real, now: real) returns (e: Effect)
    ensures HasEffect(cfg, s, OnMark(cfg, s, symbol, price, now), e)
    ensures !e.Opened?
    ensures e.Exited? ==>
      (e.symbol == symbol && ExitFor(s.acct.positions[symbol], price, now) == Some((e.exitPrice, e.reason)))
  {
    e := Quiet(symbol, price);
    if symbol in s.acct.positions {
      match ExitFor(s.acct.positions[symbol], price, now)
      case None =>
      case Some((x, reason)) =>
        e := Exited(symbol, x, reason);
        var t := s.acct.UpdateMark(symbol, price);
        assert t.positions - {symbol} == s.acct.positions - {symbol};
    }
  }

  /** Every step has exactly one of the three effects; only signal events open. */
  lemma StepEffect(cfg: Config, s: State, ev: Event) returns (e: Effect)
    ensures HasEffect(cfg, s, Next(cfg, s, ev), e)
    ensures e.Opened? && ev.SignalArrives? ==> e.sig == ev.signal && ev.signal.symbol !in s.acct.positions
    ensures e.Opened? && !ev.SignalArrives? ==> ev.SignalResumes? && s.sig.SignalReopening? && e.sig == s.sig.sig
    ensures e.Exited? ==>
      || (ev.SignalArrives? && e.symbol == ev.signal.symbol && e.reason == DirectionFlip
          && e.exitPrice == if e.symbol in s.marks then s.marks[e.symbol] else s.acct.positions[e.symbol].entryPrice)
      || (ev.MarkArrives? && e.symbol == ev.symbol
          && ExitFor(s.acct.positions[e.symbol], ev.price, ev.now) == Some((e.exitPrice, e.reason)))
  {
    e := Quiet("", 0.0);
    match ev
    case SignalArrives(sig, now) =>
      if s.sig.SignalIdle? {
        if sig.symbol !in s.acct.positions {
          e := TryOpenEffect(cfg, s, sig, now);
        } else if s.acct.positions[sig.symbol].side != sig.side {
          e := Exited(sig.symbol,
                      if sig.symbol in s.marks then s.marks[sig.symbol] else s.acct.positions[sig.symbol].entryPrice,
                      DirectionFlip);
        }
      }
    case SignalResumes(now) =>
      if s.sig.SignalReopening? {
        e := TryOpenEffect(cfg, s, s.sig.sig, now);
      }
    case MarkArrives(symbol, price, now) =>
      if s.mark.MarkIdle? {
        e := OnMarkEffect(cfg, s, symbol, price, now);
      }
    case MarkResumes =>
    case BreakersReset =>
  }

  // ----- The signal handler never comes back from a direction flip -----

  predicate OnlyFlips(t: SignalTask) {
    && (t.SignalClosing? || t.SignalTripped? ==> t.c.reason == DirectionFlip)
    && !t.SignalReopening?
  }

  /** In every run the closes made by the signal handler are direction flips, and none of them gets
      as far as opening the new direction: the closing update cannot be built and the handler stops. */
  lemma {:induction false} FlipNeverReopens(cfg: Config, events: seq<Event>)
    ensures OnlyFlips(Run(cfg, events).sig)
  {
    if events != [] {
      FlipNeverReopens(cfg, events[..|events| - 1]);
      FlipStep(cfg, Run(cfg, events[..|events| - 1]), events[|events| - 1]);
    }
  }

  lemma FlipStep(cfg: Config, s: State, ev: Event)
    requires OnlyFlips(s.sig)
    ensures OnlyFlips(Next(cfg, s, ev).sig)
  {
  }

  lemma FlipResumes(cfg: Config, s: State, now: real)
    requires OnlyFlips(s.sig) && (s.sig.SignalClosing? || s.sig.SignalTripped?)
    ensures var t := Next(cfg, s, SignalResumes(now));
            && t.acct == s.acct && t.trades == s.trades && t.updates == s.updates && OnlyFlips(t.sig)
            && (t.sig.SignalCrashed? || (s.sig.SignalClosing? && t.sig.SignalTripped?))
  {
  }

  /** After a direction flip has closed the old position, the signal handler is crashed within two
      resumptions, with no closing update published and nothing opened. */
  lemma FlipCrashes(cfg: Config, s: State, now: real, now': real)
    requires OnlyFlips(s.sig) && (s.sig.SignalClosing? || s.sig.SignalTripped?)
    ensures var t := Next(cfg, s, SignalResumes(now));
            var u := Next(cfg, t, SignalResumes(now'));
            && (t.sig.SignalCrashed? || u.sig.SignalCrashed?)
            && u.acct == s.acct && u.trades == s.trades && u.updates == s.updates
  {
    FlipResumes(cfg, s, now);
    var t := Next(cfg, s, SignalResumes(now));
    if t.sig.SignalTripped? {
      FlipResumes(cfg, t, now');
    }
  }

  // ----- The trade log as an order book -----

  /** Replays the trade log symbol by symbol: an execution needs the symbol free, a close needs the
      symbol taken by the same correlation id and side. `None` when some message does not fit. */
  function Replay(trades: seq<TradeMsg>): Option<map<Symbol, TradeMsg>> {
    if trades == [] then Some(map[])
    else
      match Replay(trades[..|trades| - 1])
      case None => None
      case Some(book) =>
        var m := trades[|trades| - 1];
        match m
        case Executed(_, symbol, _, _, _, _, _, _, _) =>
          if symbol in book then None else Some(book[symbol := m])
        case Closed(cid, symbol, side, _, _, _, _, _) =>
          if symbol in book && book[symbol].cid == cid && book[symbol].side == side
          then Some(book - {symbol}) else None
  }

  function ExecutedBook(book: Book): map<Symbol, TradeMsg> {
    map symbol | symbol in book :: ExecutedMsg(book[symbol])
  }

  function SumNet(trades: seq<TradeMsg>): real {
    if trades == [] then 0.0
    else
      SumNet(trades[..|trades| - 1]) +
      match trades[|trades| - 1]
      case Executed(_, _, _, _, _, _, _, _, _) => 0.0
      case Closed(_, _, _, _, _, net, _, _) => net
  }

  // ----- The invariant -----

  predicate WellKeyed(book: Book) {
    forall symbol :: symbol in book ==> book[symbol].symbol == symbol && book[symbol].fundingPaid == 0.0
  }

  function Cap(cfg: Config): int {
    if cfg.risk.maxConcurrent < 0 then 0 else cfg.risk.maxConcurrent
  }

  ghost predicate Sound(cfg: Config, s: State) {
    && WellKeyed(s.acct.positions)
    && s.acct.Ledger() == cfg.risk.startingBalance + SumNet(s.trades)
    && Replay(s.trades) == Some(ExecutedBook(s.acct.positions))
    && |s.acct.positions| <= Cap(cfg)
  }

  /** What appending one message does to the replay and to the sum of net results. */
  lemma Append(trades: seq<TradeMsg>, m: TradeMsg, book: map<Symbol, TradeMsg>)
    requires Replay(trades) == Some(book)
    ensures m.Executed? && m.symbol !in book ==> Replay(trades + [m]) == Some(book[m.symbol := m])
    ensures m.Closed? && m.symbol in book && book[m.symbol].cid == m.cid && book[m.symbol].side == m.side
            ==> Replay(trades + [m]) == Some(book - {m.symbol})
    ensures SumNet(trades + [m]) == SumNet(trades) + (if m.Closed? then m.realizedPnl else 0.0)
  {
    assert (trades + [m])[..|trades + [m]| - 1] == trades;
  }

  lemma QuietSound(cfg: Config, s: State, s': State, symbol: Symbol, price: real)
    requires Sound(cfg, s) && HasEffect(cfg, s, s', Quiet(symbol, price))
    ensures Sound(cfg, s')
  {
    MarkLedger(s.acct, symbol, price);
    assert ExecutedBook(s.acct.UpdateMark(symbol, price).positions) == ExecutedBook(s.acct.positions);
    if symbol in s.acct.positions {
      assert s.acct.UpdateMark(symbol, price).positions.Keys == s.acct.positions.Keys;
    }
  }

  lemma OpenedSound(cfg: Config, s: State, s': State, pos: Position)
    requires Sound(cfg, s) && pos.symbol !in s.acct.positions && pos.fundingPaid == 0.0
    requires |s.acct.positions| < cfg.risk.maxConcurrent
    requires s'.acct == s.acct.Open(pos) && s'.trades == s.trades + [ExecutedMsg(pos)]
    ensures Sound(cfg, s')
  {
    OpenLedger(s.acct, pos);
    OpenBook(s.acct.positions, pos);
    Append(s.trades, ExecutedMsg(pos), ExecutedBook(s.acct.positions));
  }

  lemma OpenBook(book: Book, pos: Position)
    requires pos.symbol !in book
    ensures ExecutedBook(book[pos.symbol := pos]) == ExecutedBook(book)[pos.symbol := ExecutedMsg(pos)]
    ensures |book[pos.symbol := pos]| == |book| + 1
  {
    assert book[pos.symbol := pos].Keys == book.Keys + {pos.symbol};
  }

  lemma CloseBook(book: Book, symbol: Symbol)
    requires symbol in book
    ensures ExecutedBook(book - {symbol}) == ExecutedBook(book) - {symbol}
    ensures |book - {symbol}| <= |book|
  {
    assert (book - {symbol}).Keys == book.Keys - {symbol};
  }

  lemma {:induction false} ExitedSound(cfg: Config, s: State, s': State, symbol: Symbol, m: TradeMsg)
    requires Sound(cfg, s) && symbol in s.acct.positions
    requires s'.acct.positions == s.acct.positions - {symbol} && s'.trades == s.trades + [m]
    requires m.Closed? && m.symbol == symbol
    requires m.cid == s.acct.positions[symbol].cid && m.side == s.acct.positions[symbol].side
    requires s'.acct.Ledger() == s.acct.Ledger() + m.realizedPnl
    ensures Sound(cfg, s')
  {
    CloseBook(s.acct.positions, symbol);
    Append(s.trades, m, ExecutedBook(s.acct.positions));
  }

  lemma StepSound(cfg: Config, s: State, ev: Event)
    requires Sound(cfg, s) && OnlyFlips(s.sig)
    ensures Sound(cfg, Next(cfg, s, ev))
  {
    var s' := Next(cfg, s, ev);
    var e := StepEffect(cfg, s, ev);
    match e
    case Quiet(symbol, price) =>
      QuietSound(cfg, s, s', symbol, price);
    case Opened(sig, now) =>
      OpenedSound(cfg, s, s', NewPosition(cfg, sig, FillPrice(s.marks, sig), now));
    case Exited(symbol, x, reason) =>
      CloseLedger(s.acct, symbol, x, ExitFee(s.acct.positions[symbol].qty, x, cfg.taker));
      ExitedSound(cfg, s, s', symbol, ClosedMsg(cfg, symbol, CloseFor(cfg, s, symbol, x, reason)));
  }

  lemma {:induction false} RunSound(cfg: Config, events: seq<Event>)
    ensures Sound(cfg, Run(cfg, events))
  {
    if events != [] {
      RunSound(cfg, events[..|events| - 1]);
      FlipNeverReopens(cfg, events[..|events| - 1]);
      StepSound(cfg, Run(cfg, events[..|events| - 1]), events[|events| - 1]);
    }
  }

  // ----- Levels -----

  /** The price has reached none of the position's three levels. */
  predicate WithinLevels(p: Position, price: real) {
    && Inside(p.side, price, p.liqPrice)
    && match p.side
       case Long => p.sl < price < p.tp
       case Short => p.tp < price < p.sl
  }

  predicate MarksWithin(book: Book) {
    forall symbol :: symbol in book && book[symbol].markPrice != 0.0 ==> WithinLevels(book[symbol], book[symbol].markPrice)
  }

  lemma MarkWithin(cfg: Config, s: State, symbol: Symbol, price: real, now: real)
    requires MarksWithin(s.acct.positions)
    ensures MarksWithin(OnMark(cfg, s, symbol, price, now).acct.positions)
  {
  }

  lemma EffectWithin(cfg: Config, s: State, s': State, e: Effect)
    requires MarksWithin(s.acct.positions) && HasEffect(cfg, s, s', e)
    requires e.Quiet? ==> s'.acct == s.acct
    ensures MarksWithin(s'.acct.positions)
  {
  }

  lemma OnlyMarksMark(cfg: Config, s: State, ev: Event)
    requires !ev.MarkArrives?
    ensures var s' := Next(cfg, s, ev); s'.trades == s.trades ==> s'.acct == s.acct
  {
  }

  /** In every run, the latest mark of a position that is still open lies strictly within its stop-loss, its
      take-profit and its liquidation price: whatever reaches a level is closed. */
  lemma {:induction false} OpenMarksAreWithinLevels(cfg: Config, events: seq<Event>)
    ensures MarksWithin(Run(cfg, events).acct.positions)
  {
    if events != [] {
      var past, ev := events[..|events| - 1], events[|events| - 1];
      OpenMarksAreWithinLevels(cfg, past);
      var s := Run(cfg, past);
      var e := StepEffect(cfg, s, ev);
      if ev.MarkArrives? {
        if s.mark.MarkIdle? { MarkWithin(cfg, s, ev.symbol, ev.price, ev.now); }
      } else {
        OnlyMarksMark(cfg, s, ev);
        EffectWithin(cfg, s, Next(cfg, s, ev), e);
      }
    }
  }

  /** The mark is at the level or on the far side of it, seen from a price that has not reached it. */
  predicate Reached(side: Side, price: real, level: real) {
    !Inside(side, price, level)
  }

  function Opposite(side: Side): Side {
    if side.Long? then Short else Long
  }

  /** What must have happened for `p` to be closed at `exitPrice` for `reason`: a level closes at the level
      itself and only when no more urgent reason applies. */
  predicate Triggered(p: Position, ev: Event, exitPrice: real, reason: CloseReason) {
    match ev
    case SignalArrives(sig, _) =>
      reason == DirectionFlip && sig.symbol == p.symbol && sig.side == Opposite(p.side)
    case MarkArrives(symbol, price, now) =>
      && symbol == p.symbol
      && (match reason
          case MaxHold => now > p.openedAt + MAX_HOLD_SECONDS && exitPrice == price
          case Liquidation => Reached(p.side, price, p.liqPrice) && exitPrice == p.liqPrice
          case StopLoss => !Reached(p.side, price, p.liqPrice) && Reached(p.side, price, p.sl) && exitPrice == p.sl
          case TakeProfit =>
            && !Reached(p.side, price, p.liqPrice) && !Reached(p.side, price, p.sl)
            && Reached(Opposite(p.side), price, p.tp) && exitPrice == p.tp
          case Manual => false
          case DirectionFlip => false)
      && (reason != MaxHold ==> now <= p.openedAt + MAX_HOLD_SECONDS)
    case SignalResumes(_) => false
    case MarkResumes => false
    case BreakersReset => false
  }

  /** In every run, every close is triggered: by a signal of the opposite side, by age, or by a mark that has
      reached the level at which the position is closed. */
  lemma {:induction false} ClosesAreTriggered(cfg: Config, events: seq<Event>, ev: Event)
    requires Closes(cfg, Run(cfg, events), ev)
    ensures var s := Run(cfg, events); var m := Next(cfg, s, ev).trades[|s.trades|];
            m.symbol in s.acct.positions && Triggered(s.acct.positions[m.symbol], ev, m.exitPrice, m.reason)
  {
    RunSound(cfg, events);
    var e := StepEffect(cfg, Run(cfg, events), ev);
  }

  // ----- The main results -----

  /** Conservation, in every reachable state of every interleaving: cash plus the margins of open
      positions is the starting balance plus the net results of all closed trades, less the entry fees
      of the trades still open. */
  lemma {:induction false} Conservation(cfg: Config, events: seq<Event>)
    ensures var s := Run(cfg, events);
            s.acct.balance + Total(Margin, s.acct.positions) ==
            cfg.risk.startingBalance + SumNet(s.trades) - Total(Fees, s.acct.positions)
  {
    RunSound(cfg, events);
  }

  /** In every run the trade log replays without a misfit to exactly the open positions: no execution
      overwrites an open symbol, nothing is closed twice or without having been opened, and the number
      of open positions never exceeds the cap. */
  lemma {:induction false} TradeLogReplays(cfg: Config, events: seq<Event>)
    ensures var s := Run(cfg, events);
            Replay(s.trades) == Some(ExecutedBook(s.acct.positions)) && |s.acct.positions| <= Cap(cfg)
  {
    RunSound(cfg, events);
  }

  /** At every step of every run that opens a position, the symbol was free, both breakers were
      untripped, the cap left room and the size was within the equity fraction of that moment. */
  lemma {:induction false} OpensAreGuarded(cfg: Config, events: seq<Event>, ev: Event)
    requires Opens(cfg, Run(cfg, events), ev)
    ensures ev.SignalArrives? && ev.signal.symbol !in Run(cfg, events).acct.positions
    ensures OpenAllowed(cfg, Run(cfg, events), ev.signal)
    ensures Next(cfg, Run(cfg, events), ev).trades[|Run(cfg, events).trades|].cid == ev.signal.cid
  {
    FlipNeverReopens(cfg, events);
    var e := StepEffect(cfg, Run(cfg, events), ev);
  }

  // ----- The breakers against the trade log -----

  /** Net results already published but not yet fed to the breakers. */
  function InFlight(s: State): real {
    (if s.sig.SignalClosing? then s.sig.c.netPnl else 0.0) +
    (if s.mark.MarkClosing? then s.mark.c.netPnl else 0.0)
  }

  lemma {:induction false} CumulativeStep(cfg: Config, s: State, ev: Event, base: real)
    requires ev != BreakersReset && OnlyFlips(s.sig)
    requires s.daily.cumulative == SumNet(s.trades) - InFlight(s) - base
    ensures var s' := Next(cfg, s, ev); s'.daily.cumulative == SumNet(s'.trades) - InFlight(s') - base
  {
    var s' := Next(cfg, s, ev);
    match ev
    case SignalArrives(_, _) => PublishedInFlight(cfg, s, ev);
    case MarkArrives(_, _, _) => PublishedInFlight(cfg, s, ev);
    case SignalResumes(_) => FedInFlight(cfg, s, ev);
    case MarkResumes => FedInFlight(cfg, s, ev);
  }

  lemma SignalInFlight(cfg: Config, s: State, sig: Signal, now: real)
    requires s.sig.SignalIdle?
    ensures var s' := OnSignal(cfg, s, sig, now);
            s'.daily == s.daily && SumNet(s'.trades) - InFlight(s') == SumNet(s.trades) - InFlight(s)
  {
    var s' := OnSignal(cfg, s, sig, now);
    AppendedNet(s, s');
    assert s'.mark == s.mark;
  }

  lemma MarkInFlight(cfg: Config, s: State, symbol: Symbol, price: real, now: real)
    requires s.mark.MarkIdle?
    ensures var s' := OnMark(cfg, s, symbol, price, now);
            s'.daily == s.daily && SumNet(s'.trades) - InFlight(s') == SumNet(s.trades) - InFlight(s)
  {
    var s' := OnMark(cfg, s, symbol, price, now);
    AppendedNet(s, s');
    assert s'.sig == s.sig;
  }

  /** Arrivals leave the breaker alone; what they publish is what they put in flight. */
  lemma PublishedInFlight(cfg: Config, s: State, ev: Event)
    requires ev.SignalArrives? || ev.MarkArrives?
    ensures var s' := Next(cfg, s, ev);
            s'.daily == s.daily && SumNet(s'.trades) - InFlight(s') == SumNet(s.trades) - InFlight(s)
  {
    if ev.SignalArrives? {
      if s.sig.SignalIdle? { SignalInFlight(cfg, s, ev.signal, ev.now); }
    } else {
      if s.mark.MarkIdle? { MarkInFlight(cfg, s, ev.symbol, ev.price, ev.now); }
    }
  }

  /** Resumptions publish nothing; what they take out of flight is what they feed to the breaker. */
  lemma FedInFlight(cfg: Config, s: State, ev: Event)
    requires OnlyFlips(s.sig) && (ev.SignalResumes? || ev.MarkResumes?)
    ensures var s' := Next(cfg, s, ev);
            s'.trades == s.trades && s'.daily.cumulative + InFlight(s') == s.daily.cumulative + InFlight(s)
  {
  }

  lemma AppendedNet(s: State, s': State)
    ensures |s'.trades| == |s.trades| + 1 && s'.trades[..|s.trades|] == s.trades ==>
      SumNet(s'.trades) == SumNet(s.trades) +
        match s'.trades[|s.trades|] case Closed(_, _, _, _, _, net, _, _) => net case Executed(_, _, _, _, _, _, _, _, _) => 0.0
  {
  }

  /** The net result that the last reset has taken off the daily breaker: everything it had counted. */
  ghost function Base(cfg: Config, events: seq<Event>): real {
    if events == [] then 0.0
    else
      var past := events[..|events| - 1];
      if events[|events| - 1].BreakersReset? then SumNet(Run(cfg, past).trades) - InFlight(Run(cfg, past))
      else Base(cfg, past)
  }

  /** In every reachable state the daily breaker has counted every net result published since the last reset
      or in flight at it, except those of closes still in flight. */
  lemma {:induction false} DailyBreakerCountsTheLog(cfg: Config, events: seq<Event>)
    ensures var s := Run(cfg, events); s.daily.cumulative == SumNet(s.trades) - InFlight(s) - Base(cfg, events)
  {
    if events != [] {
      var past := events[..|events| - 1];
      DailyBreakerCountsTheLog(cfg, past);
      FlipNeverReopens(cfg, past);
      if !events[|events| - 1].BreakersReset? {
        CumulativeStep(cfg, Run(cfg, past), events[|events| - 1], Base(cfg, past));
      }
    }
  }

  /** An untripped breaker is above minus its threshold; with a threshold of zero it may be at zero, as the
      fresh one is. */
  predicate AboveThreshold(cfg: Config, net: real) {
    if cfg.DailyThreshold() == 0.0 then net >= 0.0 else net > -Abs(cfg.DailyThreshold())
  }

  lemma {:induction false} UntrippedIsAboveThreshold(cfg: Config, events: seq<Event>)
    ensures var d := Run(cfg, events).daily; !d.tripped ==> AboveThreshold(cfg, d.cumulative)
  {
    if events != [] {
      var past := events[..|events| - 1];
      UntrippedIsAboveThreshold(cfg, past);
      UntrippedStep(cfg, Run(cfg, past), events[|events| - 1]);
    }
  }

  lemma UntrippedStep(cfg: Config, s: State, ev: Event)
    requires !s.daily.tripped ==> AboveThreshold(cfg, s.daily.cumulative)
    ensures var d := Next(cfg, s, ev).daily; !d.tripped ==> AboveThreshold(cfg, d.cumulative)
  {
  }

  /** Whenever a run opens a position, the net result of the trades closed since the last reset of the
      breakers, not counting the one close that the mark handler may have in flight, is above minus the daily
      loss threshold. */
  lemma {:induction false} OpensWithinDailyLoss(cfg: Config, events: seq<Event>, ev: Event)
    requires Opens(cfg, Run(cfg, events), ev)
    ensures var s := Run(cfg, events); var inFlight := if s.mark.MarkClosing? then s.mark.c.netPnl else 0.0;
            AboveThreshold(cfg, SumNet(s.trades) - inFlight - Base(cfg, events))
  {
    OpensAreGuarded(cfg, events, ev);
    DailyBreakerCountsTheLog(cfg, events);
    UntrippedIsAboveThreshold(cfg, events);
  }

  // ----- The drawdown breaker against the equity curve -----

  /** What one step feeds to the drawdown breaker: the equity of the moment, when a handler resumes a close. */
  ghost function FedBy(s: State, ev: Event): seq<Reading> {
    match ev
    case SignalArrives(_, _) => []
    case SignalResumes(_) => if s.sig.SignalClosing? then [Update(s.acct.Equity())] else []
    case MarkArrives(_, _, _) => []
    case MarkResumes => if s.mark.MarkClosing? then [Update(s.acct.Equity())] else []
    case BreakersReset => [Reset]
  }

  ghost function Fed(cfg: Config, events: seq<Event>): seq<Reading> {
    if events == [] then []
    else
      var past := events[..|events| - 1];
      Fed(cfg, past) + FedBy(Run(cfg, past), events[|events| - 1])
  }

  lemma AppendReading(threshold: real, h: seq<Reading>, r: Reading)
    ensures DrawdownAfter(threshold, h + [r]) ==
            match r
            case Reset => FRESH_DRAWDOWN
            case Update(x) => DrawdownAfter(threshold, h).UpdateEquity(threshold, x)
  {
    assert (h + [r])[..|h + [r]| - 1] == h;
  }

  lemma FedStep(cfg: Config, s: State, ev: Event, h: seq<Reading>)
    requires OnlyFlips(s.sig) && s.dd == DrawdownAfter(cfg.risk.maxDrawdownPct, h)
    ensures Next(cfg, s, ev).dd == DrawdownAfter(cfg.risk.maxDrawdownPct, h + FedBy(s, ev))
  {
    if FedBy(s, ev) == [] {
      assert h + FedBy(s, ev) == h;
      KeepsDrawdown(cfg, s, ev);
    } else {
      AppendReading(cfg.risk.maxDrawdownPct, h, FedBy(s, ev)[0]);
    }
  }

  lemma KeepsDrawdown(cfg: Config, s: State, ev: Event)
    requires OnlyFlips(s.sig) && FedBy(s, ev) == []
    ensures Next(cfg, s, ev).dd == s.dd
  {
  }

  /** In every reachable state the drawdown breaker is what the equities fed to it and the resets make it: one
      equity per close, taken when its handler resumes. */
  lemma {:induction false} DrawdownBreakerSawTheEquities(cfg: Config, events: seq<Event>)
    ensures Run(cfg, events).dd == DrawdownAfter(cfg.risk.maxDrawdownPct, Fed(cfg, events))
  {
    if events != [] {
      var past := events[..|events| - 1];
      DrawdownBreakerSawTheEquities(cfg, past);
      FlipNeverReopens(cfg, past);
      FedStep(cfg, Run(cfg, past), events[|events| - 1], Fed(cfg, past));
    }
  }

  /** Whenever a run opens a position, no equity fed since the last reset lies the threshold fraction below the
      running peak, so with a threshold of at most one below no earlier positive one. */
  lemma {:induction false} OpensWithinDrawdown(cfg: Config, events: seq<Event>, ev: Event)
    requires Opens(cfg, Run(cfg, events), ev)
    ensures var readings := SinceReset(Fed(cfg, events));
            && !SomeDrawdown(cfg.risk.maxDrawdownPct, readings)
            && (cfg.risk.maxDrawdownPct <= 1.0 ==> !SomeFall(cfg.risk.maxDrawdownPct, readings))
  {
    OpensAreGuarded(cfg, events, ev);
    DrawdownBreakerSawTheEquities(cfg, events);
    DrawdownTrippedIff(cfg.risk.maxDrawdownPct, Fed(cfg, events));
    if cfg.risk.maxDrawdownPct <= 1.0 {
      DrawdownTrippedIffPair(cfg.risk.maxDrawdownPct, Fed(cfg, events));
    }
  }
}
