/** How much a trade can lose. Isolated margin is meant to bound the loss; this file proves when it does. */
module EngineLoss {
  import opened Options
  import opened Messages
  import opened TradeMath
  import opened PaperAccount
  import opened EngineSpec
  import opened EngineSafety

  /** Margin and liquidation price are those of the fill. */
  predicate Priced(cfg: Config, p: Position) {
    && p.entryPrice > 0.0 && p.leverage != 0 && p.fundingPaid == 0.0
    && p.margin == IsolatedMargin(p.qty * p.entryPrice, p.leverage)
    && p.liqPrice == LiqPrice(p.entryPrice, p.side, p.leverage, cfg.mmr)
  }

  predicate AllPriced(cfg: Config, book: Book) {
    forall symbol :: symbol in book ==> Priced(cfg, book[symbol])
  }

  lemma NewPositionPriced(cfg: Config, sig: Signal, entry: real, now: real)
    requires entry > 0.0 && sig.leverage != 0
    ensures Priced(cfg, NewPosition(cfg, sig, entry, now))
  {
    QtyTimesEntry(sig.sizeUsd, entry);
  }

  lemma MarkPriced(cfg: Config, a: AccountState, symbol: Symbol, price: real)
    requires AllPriced(cfg, a.positions)
    ensures AllPriced(cfg, a.UpdateMark(symbol, price).positions)
  {
    if symbol in a.positions {
      BookPriced(cfg, a.positions, symbol, a.positions[symbol].(markPrice := price));
    }
  }

  lemma BookPriced(cfg: Config, book: Book, symbol: Symbol, p: Position)
    requires AllPriced(cfg, book)
    ensures Priced(cfg, p) ==> AllPriced(cfg, book[symbol := p])
    ensures AllPriced(cfg, book - {symbol})
  {
  }

  lemma {:induction false} EffectPriced(cfg: Config, s: State, s': State, e: Effect)
    requires HasEffect(cfg, s, s', e) && AllPriced(cfg, s.acct.positions)
    ensures AllPriced(cfg, s'.acct.positions)
  {
    match e
    case Quiet(symbol, price) =>
      MarkPriced(cfg, s.acct, symbol, price);
    case Opened(sig, now) =>
      var entry := FillPrice(s.marks, sig);
      NewPositionPriced(cfg, sig, entry, now);
      BookPriced(cfg, s.acct.positions, sig.symbol, NewPosition(cfg, sig, entry, now));
    case Exited(symbol, _, _) =>
      BookPriced(cfg, s.acct.positions, symbol, s.acct.positions[symbol]);
  }

  lemma {:induction false} RunPriced(cfg: Config, events: seq<Event>)
    ensures AllPriced(cfg, Run(cfg, events).acct.positions)
  {
    if events != [] {
      RunPriced(cfg, events[..|events| - 1]);
      StepPriced(cfg, Run(cfg, events[..|events| - 1]), events[|events| - 1]);
    }
  }

  lemma {:induction false} StepPriced(cfg: Config, s: State, ev: Event)
    requires AllPriced(cfg, s.acct.positions)
    ensures AllPriced(cfg, Next(cfg, s, ev).acct.positions)
  {
    var e := StepEffect(cfg, s, ev);
    EffectPriced(cfg, s, Next(cfg, s, ev), e);
  }

  /** The balance moves by the quantity times the credit rate at the exit price, and the reported net
      result is that credit less margin and entry fee. */
  predicate Credited(cfg: Config, delta: real, net: real, p: Position, exitPrice: real)
    requires p.leverage != 0
  {
    var rate := CreditRate(p.entryPrice, exitPrice, p.side, p.leverage, cfg.taker);
    && delta == p.qty * rate
    && (p.qty > 0.0 ==> (delta >= 0.0 <==> rate >= 0.0))
    && (p.qty >= 0.0 && rate >= 0.0 ==> delta >= 0.0)
    && net == delta - p.margin - p.fees
  }

  lemma ExitCredit(cfg: Config, s: State, s': State, e: Effect)
    requires e.Exited? && HasEffect(cfg, s, s', e) && Priced(cfg, s.acct.positions[e.symbol])
    ensures var p := s.acct.positions[e.symbol]; var m := s'.trades[|s.trades|];
            && m == ClosedMsg(cfg, e.symbol, CloseFor(cfg, s, e.symbol, e.exitPrice, e.reason))
            && Credited(cfg, s'.acct.balance - s.acct.balance, m.realizedPnl, p, e.exitPrice)
  {
    var p := s.acct.positions[e.symbol];
    CreditIsQtyTimesRate(p.qty, p.entryPrice, e.exitPrice, p.side, p.leverage, cfg.taker);
  }

  ghost predicate CloseCredited(cfg: Config, s: State, s': State)
    requires |s'.trades| > |s.trades|
  {
    var m := s'.trades[|s.trades|];
    && m.Closed? && m.symbol in s.acct.positions && s.acct.positions[m.symbol].leverage != 0
    && Credited(cfg, s'.acct.balance - s.acct.balance, m.realizedPnl, s.acct.positions[m.symbol], m.exitPrice)
  }

  lemma StepCredits(cfg: Config, s: State, ev: Event)
    requires AllPriced(cfg, s.acct.positions) && Closes(cfg, s, ev)
    ensures CloseCredited(cfg, s, Next(cfg, s, ev))
  {
    var e := StepEffect(cfg, s, ev);
    ExitCredit(cfg, s, Next(cfg, s, ev), e);
  }

  /** In every run, for every close whatever its reason: the balance moves by the quantity times the
      credit rate at the exit price, so a close with positive quantity pays something back (or nothing)
      exactly when that rate is nonnegative. The reported net result is that credit less margin and
      entry fee. */
  lemma {:induction false} EveryCloseCredits(cfg: Config, events: seq<Event>, ev: Event)
    requires Closes(cfg, Run(cfg, events), ev)
    ensures CloseCredited(cfg, Run(cfg, events), Next(cfg, Run(cfg, events), ev))
  {
    RunPriced(cfg, events);
    StepCredits(cfg, Run(cfg, events), ev);
  }

  // ----- Runs in which isolated margin bounds the loss -----

  /** A fill whose take-profit is not past its own liquidation price and whose symbol's last mark, if
      there is one, has not reached that price. */
  predicate SafeFill(cfg: Config, marks: map<Symbol, real>, sig: Signal) {
    var entry := FillPrice(marks, sig);
    && sig.sizeUsd >= 0.0
    && LeverageOk(sig.leverage, cfg.mmr, cfg.taker)
    && (var liq := LiqPrice(entry, sig.side, sig.leverage, cfg.mmr);
        && NotPast(sig.side, sig.tp, liq)
        && (sig.symbol in marks ==> Inside(sig.side, marks[sig.symbol], liq)))
  }

  /** Marks are positive, and a signal that opens a position opens it safely. Signals that are vetoed, skipped or
      only close the opposite side may be anything. */
  ghost predicate SafeEvent(cfg: Config, s: State, ev: Event) {
    match ev
    case SignalArrives(sig, _) => Opens(cfg, s, ev) ==> SafeFill(cfg, s.marks, sig)
    case SignalResumes(_) => true
    case MarkArrives(_, price, _) => price > 0.0
    case MarkResumes => true
    case BreakersReset => true
  }

  ghost predicate SafeRun(cfg: Config, events: seq<Event>) {
    events == [] ||
    (SafeRun(cfg, events[..|events| - 1]) && SafeEvent(cfg, Run(cfg, events[..|events| - 1]), events[|events| - 1]))
  }

  /** The take-profit lies on the profit side of the fill. */
  predicate ProfitSide(side: Side, tp: real, entry: real) {
    match side
    case Long => tp >= entry
    case Short => tp <= entry
  }

  /** With positive marks, a signal that embeds no entry price of its own is safe as soon as its take-profit
      is on the profit side of the fill and the fee settings cover its leverage. */
  lemma {:induction false} NoHintIsSafe(cfg: Config, marks: map<Symbol, real>, sig: Signal)
    requires sig.entryHint.None? && sig.sizeUsd >= 0.0 && LeverageOk(sig.leverage, cfg.mmr, cfg.taker)
    requires sig.symbol in marks ==> marks[sig.symbol] > 0.0
    requires FillPrice(marks, sig) > 0.0 && ProfitSide(sig.side, sig.tp, FillPrice(marks, sig))
    ensures SafeFill(cfg, marks, sig)
  {
    EntryInside(FillPrice(marks, sig), sig.side, sig.leverage, cfg.mmr, cfg.taker);
  }

  /** Positive marks, and of the signals that open a position: no entry price of their own, fees covered, and a
      take-profit on the profit side of the fill. */
  ghost predicate HintFreeEvent(cfg: Config, s: State, ev: Event) {
    match ev
    case SignalArrives(sig, _) =>
      Opens(cfg, s, ev) ==>
        && sig.entryHint.None? && sig.sizeUsd >= 0.0 && LeverageOk(sig.leverage, cfg.mmr, cfg.taker)
        && ProfitSide(sig.side, sig.tp, FillPrice(s.marks, sig))
    case SignalResumes(_) => true
    case MarkArrives(_, price, _) => price > 0.0
    case MarkResumes => true
    case BreakersReset => true
  }

  ghost predicate HintFreeRun(cfg: Config, events: seq<Event>) {
    events == [] ||
    (&& HintFreeRun(cfg, events[..|events| - 1])
     && HintFreeEvent(cfg, Run(cfg, events[..|events| - 1]), events[|events| - 1]))
  }

  predicate PositiveMarks(marks: map<Symbol, real>) {
    forall symbol :: symbol in marks ==> marks[symbol] > 0.0
  }

  lemma MarksStayPositive(cfg: Config, s: State, ev: Event)
    requires PositiveMarks(s.marks) && HintFreeEvent(cfg, s, ev)
    ensures PositiveMarks(Next(cfg, s, ev).marks)
  {
  }

  /** Such runs are safe, so the loss bound holds in them. */
  lemma {:induction false} HintFreeRunIsSafe(cfg: Config, events: seq<Event>)
    requires HintFreeRun(cfg, events)
    ensures SafeRun(cfg, events) && PositiveMarks(Run(cfg, events).marks)
  {
    if events != [] {
      var past, ev := events[..|events| - 1], events[|events| - 1];
      HintFreeRunIsSafe(cfg, past);
      MarksStayPositive(cfg, Run(cfg, past), ev);
      if ev.SignalArrives? && Opens(cfg, Run(cfg, past), ev) {
        OpensAreGuarded(cfg, past, ev);
        NoHintIsSafe(cfg, Run(cfg, past).marks, ev.signal);
      }
    }
  }

  /** The invariant behind the bound: no open position's last mark has reached its liquidation price. */
  predicate Sheltered(cfg: Config, p: Position, marks: map<Symbol, real>) {
    && p.qty >= 0.0 && LeverageOk(p.leverage, cfg.mmr, cfg.taker)
    && NotPast(p.side, p.tp, p.liqPrice)
    && (p.symbol in marks ==> Inside(p.side, marks[p.symbol], p.liqPrice))
  }

  predicate AllSheltered(cfg: Config, s: State) {
    forall symbol :: symbol in s.acct.positions ==>
      s.acct.positions[symbol].symbol == symbol && Sheltered(cfg, s.acct.positions[symbol], s.marks)
  }

  lemma MarkSheltered(cfg: Config, s: State, symbol: Symbol, price: real, now: real)
    requires AllSheltered(cfg, s)
    ensures AllSheltered(cfg, OnMark(cfg, s, symbol, price, now))
  {
    var t := OnMark(cfg, s, symbol, price, now);
    forall k | k in t.acct.positions
      ensures t.acct.positions[k].symbol == k && Sheltered(cfg, t.acct.positions[k], t.marks)
    {
      assert k in s.acct.positions;
    }
  }

  lemma OpenSheltered(cfg: Config, s: State, sig: Signal, now: real)
    requires AllSheltered(cfg, s) && sig.symbol !in s.acct.positions
    requires TryOpen(cfg, s, sig, now).trades != s.trades ==> SafeFill(cfg, s.marks, sig)
    ensures AllSheltered(cfg, TryOpen(cfg, s, sig, now))
  {
    var t := TryOpen(cfg, s, sig, now);
    if t.acct != s.acct {
      var entry := FillPrice(s.marks, sig);
      var pos := NewPosition(cfg, sig, entry, now);
      assert pos.qty >= 0.0;
      assert Sheltered(cfg, pos, s.marks);
    }
  }

  lemma StepSheltered(cfg: Config, s: State, ev: Event)
    requires AllSheltered(cfg, s) && OnlyFlips(s.sig) && SafeEvent(cfg, s, ev)
    ensures AllSheltered(cfg, Next(cfg, s, ev))
  {
    match ev
    case SignalArrives(sig, now) =>
      if s.sig.SignalIdle? && sig.symbol !in s.acct.positions { OpenSheltered(cfg, s, sig, now); }
    case MarkArrives(symbol, price, now) => MarkSheltered(cfg, s, symbol, price, now);
    case SignalResumes(now) =>
    case MarkResumes =>
    case BreakersReset =>
  }

  lemma {:induction false} RunSheltered(cfg: Config, events: seq<Event>)
    requires SafeRun(cfg, events)
    ensures AllSheltered(cfg, Run(cfg, events))
  {
    if events != [] {
      var past := events[..|events| - 1];
      RunSheltered(cfg, past);
      FlipNeverReopens(cfg, past);
      StepSheltered(cfg, Run(cfg, past), events[|events| - 1]);
    }
  }

  /** Outside the age limit, every exit price is within the liquidation price. */
  lemma {:induction false} ExitNotPast(cfg: Config, s: State, ev: Event, e: Effect)
    requires e.Exited? && e.reason != MaxHold && e.symbol in s.acct.positions
    requires Priced(cfg, s.acct.positions[e.symbol])
    requires s.acct.positions[e.symbol].symbol == e.symbol && Sheltered(cfg, s.acct.positions[e.symbol], s.marks)
    requires
      || (e.exitPrice == if e.symbol in s.marks then s.marks[e.symbol] else s.acct.positions[e.symbol].entryPrice)
      || (ev.MarkArrives? && ExitFor(s.acct.positions[e.symbol], ev.price, ev.now) == Some((e.exitPrice, e.reason)))
    ensures NotPast(s.acct.positions[e.symbol].side, e.exitPrice, s.acct.positions[e.symbol].liqPrice)
  {
    var p := s.acct.positions[e.symbol];
    EntryInside(p.entryPrice, p.side, p.leverage, cfg.mmr, cfg.taker);
  }

  /** In every safe run, over all interleavings of the two handlers: a close for any reason other than
      the age limit never lowers the balance, so the trade loses at most its isolated margin plus its
      entry fee. */
  lemma {:induction false} LossIsBounded(cfg: Config, events: seq<Event>, ev: Event)
    requires SafeRun(cfg, events) && Closes(cfg, Run(cfg, events), ev)
    ensures var s := Run(cfg, events); var s' := Next(cfg, s, ev); var m := s'.trades[|s.trades|];
            m.reason != MaxHold ==>
              && s'.acct.balance >= s.acct.balance
              && m.symbol in s.acct.positions
              && m.realizedPnl >= -(s.acct.positions[m.symbol].margin + s.acct.positions[m.symbol].fees)
  {
    var s := Run(cfg, events);
    RunPriced(cfg, events);
    RunSheltered(cfg, events);
    var e := StepEffect(cfg, s, ev);
    if e.reason != MaxHold {
      var p := s.acct.positions[e.symbol];
      ExitNotPast(cfg, s, ev, e);
      RateAtLiquidation(p.entryPrice, e.exitPrice, p.side, p.leverage, cfg.mmr, cfg.taker);
      ExitCredit(cfg, s, Next(cfg, s, ev), e);
    }
  }
}
