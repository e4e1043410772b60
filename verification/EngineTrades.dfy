/** What a trade of the engine is made of, field by field: the position that a signal opens, the message that
    announces it, and the money and the message of its close. */
module EngineTrades {
  import opened Options
  import opened Messages
  import opened TradeMath
  import opened PaperAccount
  import opened Guards
  import opened EngineSpec
  import opened EngineSafety

  /** The price at which a signal is filled, given the marks seen so far. */
  predicate FilledAt(marks: map<Symbol, real>, sig: Signal, price: real) {
    if sig.entryHint.Some? then price == sig.entryHint.value
    else if sig.symbol in marks && marks[sig.symbol] != 0.0 then price == marks[sig.symbol]
    else price + price == sig.sl + sig.tp
  }

  /** The position is the one the signal asks for: its terms are the signal's, it is worth the signal's size at the
      fill, it ties up one leverage-th of it, and at the liquidation price it has lost that margin but for the
      maintenance margin. */
  predicate FromSignal(cfg: Config, marks: map<Symbol, real>, sig: Signal, now: real, p: Position) {
    && p.symbol == sig.symbol && p.side == sig.side && p.sl == sig.sl && p.tp == sig.tp
    && p.leverage == sig.leverage && p.cid == sig.cid && p.openedAt == now
    && FilledAt(marks, sig, p.entryPrice) && p.entryPrice > 0.0
    && p.qty * p.entryPrice == sig.sizeUsd
    && p.margin * p.leverage as real == sig.sizeUsd
    && p.fees == cfg.taker * sig.sizeUsd
    && (match p.side
        case Long => p.entryPrice - p.liqPrice
        case Short => p.liqPrice - p.entryPrice) * p.leverage as real
       == p.entryPrice - cfg.mmr * p.entryPrice * p.leverage as real
    && p.fundingPaid == 0.0
  }

  predicate AnnouncedBy(m: TradeMsg, p: Position) {
    && m.Executed?
    && m.cid == p.cid && m.symbol == p.symbol && m.side == p.side && m.qty == p.qty && m.entryPrice == p.entryPrice
    && m.leverage == p.leverage && m.sl == p.sl && m.tp == p.tp && m.fees == p.fees
  }

  lemma NewPositionFits(cfg: Config, marks: map<Symbol, real>, sig: Signal, now: real)
    requires FillPrice(marks, sig) > 0.0 && sig.leverage != 0
    ensures FromSignal(cfg, marks, sig, now, NewPosition(cfg, sig, FillPrice(marks, sig), now))
  {
    var e, l := FillPrice(marks, sig), sig.leverage as real;
    assert 1.0 / l * l == 1.0;
    LiquidationDistance(e, 1.0 / l, cfg.mmr, l);
  }

  lemma LiquidationDistance(e: real, k: real, mmr: real, l: real)
    requires k * l == 1.0
    ensures (e - e * (1.0 - k + mmr)) * l == e - mmr * e * l
    ensures (e * (1.0 + k - mmr) - e) * l == e - mmr * e * l
  {
    assert e - e * (1.0 - k + mmr) == e * (k - mmr);
    assert e * (1.0 + k - mmr) - e == e * (k - mmr);
    assert e * (k - mmr) * l == e * (k * l) - mmr * e * l;
  }

  /** At every step of every run that opens a position: it is unmarked and the one the signal asks for, it is the
      only change to the positions, it costs its margin and its fee, and the message says what it is. */
  lemma {:induction false} OpensWhatIsAsked(cfg: Config, events: seq<Event>, ev: Event)
    requires Opens(cfg, Run(cfg, events), ev)
    ensures var s := Run(cfg, events); var s' := Next(cfg, s, ev);
            && ev.SignalArrives? && ev.signal.symbol in s'.acct.positions
            && (var p := s'.acct.positions[ev.signal.symbol];
                && FromSignal(cfg, s.marks, ev.signal, ev.now, p) && p.markPrice == 0.0
                && s'.acct.positions == s.acct.positions[ev.signal.symbol := p]
                && s'.acct.balance == s.acct.balance - p.margin - p.fees
                && s'.trades[..|s.trades|] == s.trades && |s'.trades| == |s.trades| + 1
                && AnnouncedBy(s'.trades[|s.trades|], p))
  {
    OpensAreGuarded(cfg, events, ev);
    var s := Run(cfg, events);
    var e := StepEffect(cfg, s, ev);
    NewPositionFits(cfg, s.marks, ev.signal, ev.now);
  }

  // ----- Positions between open and close -----

  /** Nothing but the mark differs. */
  predicate SameTerms(p: Position, q: Position) {
    p.(markPrice := 0.0) == q.(markPrice := 0.0)
  }

  /** A step that does not open a position changes nothing of those that stay but the mark, which becomes the price
      that arrives. */
  lemma {:induction false} TermsStay(cfg: Config, events: seq<Event>, ev: Event, symbol: Symbol)
    requires !Opens(cfg, Run(cfg, events), ev) && symbol in Next(cfg, Run(cfg, events), ev).acct.positions
    ensures var s := Run(cfg, events); var q := Next(cfg, s, ev).acct.positions[symbol];
            && symbol in s.acct.positions && SameTerms(s.acct.positions[symbol], q)
            && q.markPrice == if ev.MarkArrives? && ev.symbol == symbol && s.mark.MarkIdle?
                              then ev.price else s.acct.positions[symbol].markPrice
  {
    var s := Run(cfg, events);
    FlipNeverReopens(cfg, events);
    if ev.MarkArrives? {
      if s.mark.MarkIdle? { MarkKeepsTerms(cfg, s, ev.symbol, ev.price, ev.now, symbol); }
    } else {
      OnlyMarksMark(cfg, s, ev);
      var e := StepEffect(cfg, s, ev);
    }
  }

  lemma MarkKeepsTerms(cfg: Config, s: State, k: Symbol, price: real, now: real, symbol: Symbol)
    requires symbol in OnMark(cfg, s, k, price, now).acct.positions
    ensures var q := OnMark(cfg, s, k, price, now).acct.positions[symbol];
            && symbol in s.acct.positions && SameTerms(s.acct.positions[symbol], q)
            && q.markPrice == if k == symbol then price else s.acct.positions[symbol].markPrice
  {
  }

  /** The signal that arrived as event `k` opened the position. */
  ghost predicate OpenedBy(cfg: Config, events: seq<Event>, k: nat, p: Position)
    requires k < |events|
  {
    events[k].SignalArrives? && FromSignal(cfg, Run(cfg, events[..k]).marks, events[k].signal, events[k].now, p)
  }

  ghost predicate HasSignal(cfg: Config, events: seq<Event>, p: Position) {
    exists k: nat :: k < |events| && OpenedBy(cfg, events, k, p)
  }

  lemma HasSignalLater(cfg: Config, events: seq<Event>, ev: Event, p: Position, q: Position)
    requires HasSignal(cfg, events, p) && SameTerms(p, q)
    ensures HasSignal(cfg, events + [ev], q)
  {
    var k: nat :| k < |events| && OpenedBy(cfg, events, k, p);
    assert (events + [ev])[..k] == events[..k];
    assert OpenedBy(cfg, events + [ev], k, q);
  }

  /** In every run, every open position is the one that some signal of the run asked for when it arrived, opening time
      and all, however often it has been marked since. */
  lemma {:induction false} EveryPositionHasItsSignal(cfg: Config, events: seq<Event>)
    ensures forall symbol :: symbol in Run(cfg, events).acct.positions ==>
              HasSignal(cfg, events, Run(cfg, events).acct.positions[symbol])
  {
    if events != [] {
      var past, ev := events[..|events| - 1], events[|events| - 1];
      EveryPositionHasItsSignal(cfg, past);
      assert past + [ev] == events;
      var s, s' := Run(cfg, past), Run(cfg, events);
      forall symbol | symbol in s'.acct.positions ensures HasSignal(cfg, events, s'.acct.positions[symbol]) {
        if Opens(cfg, s, ev) {
          OpensWhatIsAsked(cfg, past, ev);
        } else {
          TermsStay(cfg, past, ev, symbol);
        }
        if Opens(cfg, s, ev) && symbol == ev.signal.symbol {
          assert OpenedBy(cfg, events, |past|, s'.acct.positions[symbol]);
        } else {
          HasSignalLater(cfg, past, ev, s.acct.positions[symbol], s'.acct.positions[symbol]);
        }
      }
    }
  }

  // ----- What the agents are told -----

  /** The gain of a position at a price, before fees. */
  function Gain(p: Position, price: real): real {
    match p.side
    case Long => p.qty * price - p.qty * p.entryPrice
    case Short => p.qty * p.entryPrice - p.qty * price
  }

  /** An update that shows the position as it is: its terms, its mark, and its gain at that mark if it has one. */
  predicate Reports(u: PositionUpdate, p: Position) {
    && !u.isClosed && u.closeReason == None
    && u.symbol == p.symbol && u.side == p.side && u.qty == p.qty && u.entryPrice == p.entryPrice
    && u.markPrice == p.markPrice && u.isolatedMargin == p.margin && u.liqPrice == p.liqPrice
    && u.unrealizedPnl == if p.markPrice == 0.0 then 0.0 else Gain(p, p.markPrice)
  }

  predicate ReportsClose(u: PositionUpdate, c: Closing) {
    && u.isClosed && u.closeReason == Some(c.reason)
    && u.symbol == c.pos.symbol && u.side == c.pos.side && u.qty == c.pos.qty && u.entryPrice == c.pos.entryPrice
    && u.markPrice == c.exitPrice && u.isolatedMargin == 0.0 && u.unrealizedPnl == 0.0 && u.liqPrice == c.pos.liqPrice
  }

  lemma UpdateReports(p: Position)
    ensures Reports(OpenUpdate(p), p)
  {
    GainIsPnl(p, p.markPrice);
  }

  /** Whatever a step of a run tells the agents is one message, about a position as it now is or about the close that the
      mark handler is in the rest of. */
  lemma {:induction false} UpdatesAreTrue(cfg: Config, events: seq<Event>, ev: Event)
    ensures var s := Run(cfg, events); var s' := Next(cfg, s, ev);
            || s'.updates == s.updates
            || (&& |s'.updates| == |s.updates| + 1 && s'.updates[..|s.updates|] == s.updates
                && (var u := s'.updates[|s.updates|];
                    || (u.symbol in s'.acct.positions && Reports(u, s'.acct.positions[u.symbol]))
                    || ((s.mark.MarkClosing? || s.mark.MarkTripped?) && ReportsClose(u, s.mark.c))))
  {
    var s := Run(cfg, events);
    RunSound(cfg, events);
    FlipNeverReopens(cfg, events);
    match ev
    case SignalArrives(sig, now) => assert Next(cfg, s, ev).updates == s.updates;
    case SignalResumes(now) =>
      if s.sig.SignalExecuted? && s.sig.symbol in s.acct.positions { UpdateReports(s.acct.positions[s.sig.symbol]); }
    case MarkArrives(symbol, price, now) =>
      if s.mark.MarkIdle? {
        MarkTells(cfg, s, symbol, price, now);
        var s' := OnMark(cfg, s, symbol, price, now);
        if symbol in s'.acct.positions { UpdateReports(s'.acct.positions[symbol]); }
      }
    case MarkResumes =>
    case BreakersReset =>
  }

  lemma MarkTells(cfg: Config, s: State, symbol: Symbol, price: real, now: real)
    requires WellKeyed(s.acct.positions)
    ensures var s' := OnMark(cfg, s, symbol, price, now);
            || s'.updates == s.updates
            || (symbol in s'.acct.positions && s'.acct.positions[symbol].symbol == symbol
                && s'.updates == s.updates + [OpenUpdate(s'.acct.positions[symbol])])
  {
  }

  // ----- Marks that close nothing -----

  lemma NothingTriggers(p: Position, price: real, now: real)
    requires now <= p.openedAt + 6.0 * 3600.0 && WithinLevels(p, price)
    ensures ExitFor(p, price, now) == None
  {
  }

  lemma QuietMark(cfg: Config, s: State, symbol: Symbol, price: real, now: real)
    requires s.mark.MarkIdle? && symbol in s.acct.positions
    requires ExitFor(s.acct.positions[symbol].(markPrice := price), price, now) == None
    ensures var s' := OnMark(cfg, s, symbol, price, now); var q := s.acct.positions[symbol].(markPrice := price);
            && s'.acct == AccountState(s.acct.balance, s.acct.positions[symbol := q])
            && s'.trades == s.trades && s'.mark.MarkIdle? && s'.updates == s.updates + [OpenUpdate(q)]
  {
  }

  /** A position marked no later than six hours after its opening and within its levels stays open and is reported
      with that mark. */
  lemma {:induction false} StaysOpen(cfg: Config, events: seq<Event>, symbol: Symbol, price: real, now: real)
    requires Run(cfg, events).mark.MarkIdle? && symbol in Run(cfg, events).acct.positions
    requires var p := Run(cfg, events).acct.positions[symbol];
             now <= p.openedAt + 6.0 * 3600.0 && WithinLevels(p, price)
    ensures var s := Run(cfg, events); var s' := Next(cfg, s, MarkArrives(symbol, price, now));
            var q := s.acct.positions[symbol].(markPrice := price);
            && s'.acct == AccountState(s.acct.balance, s.acct.positions[symbol := q]) && s'.trades == s.trades
            && |s'.updates| == |s.updates| + 1 && s'.updates[..|s.updates|] == s.updates
            && Reports(s'.updates[|s.updates|], q)
  {
    var s := Run(cfg, events);
    var q := s.acct.positions[symbol].(markPrice := price);
    NothingTriggers(q, price, now);
    QuietMark(cfg, s, symbol, price, now);
    UpdateReports(q);
  }

  // ----- Closing -----

  lemma GainIsPnl(p: Position, price: real)
    ensures Pnl(p.qty, p.entryPrice, price, p.side) == Gain(p, price)
  {
  }

  lemma FeeCommutes(qty: real, price: real, rate: real)
    ensures ExitFee(qty, price, rate) == rate * (qty * price)
  {
  }

  /** What a close pays out and reports for a position without funding. */
  predicate ClosedAt(cfg: Config, p: Position, m: TradeMsg, paid: real) {
    && m.Closed? && m.cid == p.cid && m.side == p.side && m.fundingPaid == 0.0
    && m.exitFees == cfg.taker * (p.qty * m.exitPrice)
    && m.realizedPnl == Gain(p, m.exitPrice) - p.fees - m.exitFees
    && paid == p.margin + Gain(p, m.exitPrice) - m.exitFees
  }

  lemma ExitPays(cfg: Config, s: State, s': State, e: Effect)
    requires e.Exited? && HasEffect(cfg, s, s', e) && s.acct.positions[e.symbol].fundingPaid == 0.0
    ensures s'.acct.positions == s.acct.positions - {e.symbol}
    ensures ClosedAt(cfg, s.acct.positions[e.symbol], ClosedMsg(cfg, e.symbol, CloseFor(cfg, s, e.symbol, e.exitPrice, e.reason)),
                     s'.acct.balance - s.acct.balance)
  {
    var p := s.acct.positions[e.symbol];
    GainIsPnl(p, e.exitPrice);
    FeeCommutes(p.qty, e.exitPrice, cfg.taker);
  }

  /** At every step of every run that closes a position: it alone leaves, its margin and its gain less the exit fee come
      back, and the message says so. */
  lemma {:induction false} ClosesWhatWasOpen(cfg: Config, events: seq<Event>, ev: Event)
    requires Closes(cfg, Run(cfg, events), ev)
    ensures var s := Run(cfg, events); var s' := Next(cfg, s, ev); var m := s'.trades[|s.trades|];
            && s'.trades[..|s.trades|] == s.trades && |s'.trades| == |s.trades| + 1
            && m.symbol in s.acct.positions && s'.acct.positions == s.acct.positions - {m.symbol}
            && ClosedAt(cfg, s.acct.positions[m.symbol], m, s'.acct.balance - s.acct.balance)
  {
    RunSound(cfg, events);
    var s := Run(cfg, events);
    var e := StepEffect(cfg, s, ev);
    assert s.acct.positions[e.symbol].fundingPaid == 0.0;
    ExitPays(cfg, s, Next(cfg, s, ev), e);
  }

  // ----- Vetoes and reported trips -----

  /** What becomes of a signal that an idle handler takes. */
  lemma {:induction false} SignalOutcome(cfg: Config, events: seq<Event>, sig: Signal, now: real)
    requires Run(cfg, events).sig.SignalIdle?
    ensures var s := Run(cfg, events); var ev := SignalArrives(sig, now); var s' := Next(cfg, s, ev);
            if sig.symbol in s.acct.positions then
              if s.acct.positions[sig.symbol].side == sig.side then s' == s
              else Closes(cfg, s, ev) && s'.trades[|s.trades|].symbol == sig.symbol && s'.vetoes == s.vetoes
            else if s.daily.tripped || s.dd.tripped then
              s' == s.(vetoes := s.vetoes + [RiskVeto(sig.cid, "daily_loss_or_drawdown")])
            else if exists k: nat :: FirstFailure(cfg, s, sig, k) then
              exists k: nat :: FirstFailure(cfg, s, sig, k) && s' == s.(vetoes := s.vetoes + [RiskVeto(sig.cid, GUARD_NAMES[k])])
            else if sig.leverage == 0 || FillPrice(s.marks, sig) <= 0.0 then s' == s.(sig := SignalCrashed)
            else Opens(cfg, s, ev) && s'.vetoes == s.vetoes && s'.sig == SignalExecuted(sig.symbol)
  {
    var s := Run(cfg, events);
    if sig.symbol !in s.acct.positions && !s.daily.tripped && !s.dd.tripped {
      if k: nat :| FirstFailure(cfg, s, sig, k) {
        FirstFailureNamesVeto(cfg.risk, |s.acct.positions|, s.acct.Equity(), sig, k);
      } else {
        NoFailure(cfg, s, sig);
      }
    }
  }

  /** Guard `k` is the first that the signal fails. */
  ghost predicate FirstFailure(cfg: Config, s: State, sig: Signal, k: nat) {
    && k < |GUARD_NAMES| && !Passes(cfg.risk, |s.acct.positions|, s.acct.Equity(), sig, k)
    && forall j :: 0 <= j < k ==> Passes(cfg.risk, |s.acct.positions|, s.acct.Equity(), sig, j)
  }

  lemma NoFailure(cfg: Config, s: State, sig: Signal)
    requires forall k: nat :: !FirstFailure(cfg, s, sig, k)
    ensures Check(cfg.risk, |s.acct.positions|, s.acct.Equity(), sig).Allowed?
  {
    assert !FirstFailure(cfg, s, sig, 0);
    assert !FirstFailure(cfg, s, sig, 1);
    assert !FirstFailure(cfg, s, sig, 2);
    assert !FirstFailure(cfg, s, sig, 3);
    assert !FirstFailure(cfg, s, sig, 4);
  }

  /** Only an arriving signal is ever vetoed. */
  lemma {:induction false} OnlySignalsAreVetoed(cfg: Config, events: seq<Event>, ev: Event)
    requires !ev.SignalArrives?
    ensures Next(cfg, Run(cfg, events), ev).vetoes == Run(cfg, events).vetoes
  {
    FlipNeverReopens(cfg, events);
    VetoFrame(cfg, Run(cfg, events), ev);
  }

  lemma VetoFrame(cfg: Config, s: State, ev: Event)
    requires OnlyFlips(s.sig) && !ev.SignalArrives?
    ensures Next(cfg, s, ev).vetoes == s.vetoes
  {
  }

  /** The event resumes a handler that has just taken a position out of the account. */
  predicate ResumesClose(s: State, ev: Event) {
    (ev.SignalResumes? && s.sig.SignalClosing?) || (ev.MarkResumes? && s.mark.MarkClosing?)
  }

  function TripReport(cfg: Config, lastValue: real): CircuitTripped {
    CircuitTripped("daily_loss", lastValue, cfg.risk.startingBalance * cfg.risk.dailyLossPct)
  }

  lemma TripFrame(cfg: Config, s: State, ev: Event)
    requires OnlyFlips(s.sig)
    ensures var s' := Next(cfg, s, ev);
            s'.circuits == if ResumesClose(s, ev) && s'.daily.tripped
                           then s.circuits + [TripReport(cfg, s'.daily.lastValue)] else s.circuits
  {
    match ev
    case SignalArrives(_, _) =>
    case SignalResumes(_) =>
    case MarkArrives(_, _, _) =>
    case MarkResumes =>
    case BreakersReset =>
  }

  /** In every run a trip is reported exactly when a close resumes and finds the daily breaker tripped, with the
      breaker's last value and its threshold. */
  lemma {:induction false} TripsAreReported(cfg: Config, events: seq<Event>, ev: Event)
    ensures var s := Run(cfg, events); var s' := Next(cfg, s, ev);
            s'.circuits == if ResumesClose(s, ev) && s'.daily.tripped
                           then s.circuits + [TripReport(cfg, s'.daily.lastValue)] else s.circuits
  {
    FlipNeverReopens(cfg, events);
    TripFrame(cfg, Run(cfg, events), ev);
  }
}
