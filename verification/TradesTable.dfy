/** The trades table as storage/subscriber.py fills it from the trade topics, and its agreement with
    the engine's account. */
module TradesTable {
  import opened Options
  import opened Messages
  import opened PaperAccount
  import opened EngineSpec
  import opened EngineSafety
  import opened EngineTrades

  /** The columns an UPDATE fills when a trade closes; all NULL before. */
  datatype Exit = Exit(exitPrice: real, reason: CloseReason, realizedPnl: real, fundingPaid: real)

  datatype Row = Row(cid: Cid, symbol: Symbol, side: Side, qty: real, entryPrice: real, leverage: int,
                     sl: real, tp: real, fees: real, exit: Option<Exit>)

  /** Rows in order of insertion. */
  type Table = seq<Row>

  predicate HasCid(t: Table, cid: Cid) {
    exists i :: 0 <= i < |t| && t[i].cid == cid
  }

  /** INSERT ... ON CONFLICT (correlation_id) DO NOTHING */
  function InsertOpen(t: Table, m: TradeMsg): Table
    requires m.Executed?
  {
    if HasCid(t, m.cid) then t
    else t + [Row(m.cid, m.symbol, m.side, m.qty, m.entryPrice, m.leverage, m.sl, m.tp, m.fees, None)]
  }

  function CloseRow(r: Row, m: TradeMsg): Row
    requires m.Closed?
  {
    if r.cid == m.cid
    then r.(exit := Some(Exit(m.exitPrice, m.reason, m.realizedPnl, m.fundingPaid)), fees := r.fees + m.exitFees)
    else r
  }

  /** UPDATE ... WHERE correlation_id = $1 */
  function UpdateClose(t: Table, m: TradeMsg): Table
    requires m.Closed?
  {
    seq(|t|, i requires 0 <= i < |t| => CloseRow(t[i], m))
  }

  function Consume(t: Table, m: TradeMsg): Table {
    match m
    case Executed(_, _, _, _, _, _, _, _, _) => InsertOpen(t, m)
    case Closed(_, _, _, _, _, _, _, _) => UpdateClose(t, m)
  }

  /** The table after draining a trade log in order. */
  function Drain(trades: seq<TradeMsg>): Table {
    if trades == [] then [] else Consume(Drain(trades[..|trades| - 1]), trades[|trades| - 1])
  }

  function SumRealized(t: Table): real {
    if t == [] then 0.0
    else
      SumRealized(t[..|t| - 1]) +
      match t[|t| - 1].exit
      case None => 0.0
      case Some(x) => x.realizedPnl
  }

  // ----- Logs whose executions carry distinct correlation ids -----

  predicate DistinctCids(trades: seq<TradeMsg>) {
    forall i, j :: 0 <= i < j < |trades| && trades[i].Executed? && trades[j].Executed? ==> trades[i].cid != trades[j].cid
  }

  predicate UniqueRows(t: Table) {
    forall i, j :: 0 <= i < j < |t| ==> t[i].cid != t[j].cid
  }

  predicate Matches(r: Row, m: TradeMsg) {
    m.Executed? && r == Row(m.cid, m.symbol, m.side, m.qty, m.entryPrice, m.leverage, m.sl, m.tp, m.fees, None)
  }

  /** Rows and open trades are the same thing: an open row is the record of the open trade of its symbol,
      and every open trade has one. */
  predicate OpenRowsAreTheBook(t: Table, book: map<Symbol, TradeMsg>) {
    && (forall i :: 0 <= i < |t| && t[i].exit.None? ==> t[i].symbol in book && Matches(t[i], book[t[i].symbol]))
    && (forall symbol :: symbol in book ==> exists i :: 0 <= i < |t| && Matches(t[i], book[symbol]))
  }

  predicate ExecutedCid(trades: seq<TradeMsg>, cid: Cid) {
    exists i :: 0 <= i < |trades| && trades[i].Executed? && trades[i].cid == cid
  }

  ghost predicate Agrees(trades: seq<TradeMsg>, t: Table, book: map<Symbol, TradeMsg>) {
    && UniqueRows(t)
    && OpenRowsAreTheBook(t, book)
    && SumRealized(t) == SumNet(trades)
    && (forall cid :: HasCid(t, cid) <==> ExecutedCid(trades, cid))
    && KeyedBySymbol(book)
  }

  lemma InsertAgrees(trades: seq<TradeMsg>, m: TradeMsg, t: Table, book: map<Symbol, TradeMsg>)
    requires Agrees(trades, t, book) && m.Executed? && m.symbol !in book && !ExecutedCid(trades, m.cid)
    ensures Agrees(trades + [m], InsertOpen(t, m), book[m.symbol := m])
  {
    assert !HasCid(t, m.cid);
    var t' := InsertOpen(t, m);
    var trades' := trades + [m];
    var book' := book[m.symbol := m];
    assert t'[..|t'| - 1] == t && trades'[..|trades'| - 1] == trades;
    assert Matches(t'[|t|], m);
    forall symbol | symbol in book' ensures exists i :: 0 <= i < |t'| && Matches(t'[i], book'[symbol]) {
      if symbol != m.symbol {
        var i :| 0 <= i < |t| && Matches(t[i], book[symbol]);
        assert t'[i] == t[i];
      }
    }
    forall cid ensures HasCid(t', cid) <==> ExecutedCid(trades', cid) {
      HasCidAppend(t, t'[|t|], cid);
      ExecutedCidAppend(trades, m, cid);
    }
  }

  lemma HasCidAppend(t: Table, r: Row, cid: Cid)
    ensures HasCid(t + [r], cid) <==> HasCid(t, cid) || r.cid == cid
  {
    if HasCid(t, cid) {
      var i :| 0 <= i < |t| && t[i].cid == cid;
      assert (t + [r])[i].cid == cid;
    }
    if r.cid == cid { assert (t + [r])[|t|].cid == cid; }
  }

  lemma ExecutedCidAppend(trades: seq<TradeMsg>, m: TradeMsg, cid: Cid)
    ensures ExecutedCid(trades + [m], cid) <==> ExecutedCid(trades, cid) || (m.Executed? && m.cid == cid)
  {
    if ExecutedCid(trades, cid) {
      var i :| 0 <= i < |trades| && trades[i].Executed? && trades[i].cid == cid;
      assert (trades + [m])[i] == trades[i];
    }
    if m.Executed? && m.cid == cid { assert (trades + [m])[|trades|] == m; }
  }

  /** Closing one open row of a table with unique ids changes that row alone. */
  lemma {:induction false} UpdateSum(t: Table, m: TradeMsg)
    requires m.Closed? && UniqueRows(t)
    requires forall i :: 0 <= i < |t| && t[i].cid == m.cid ==> t[i].exit.None?
    ensures SumRealized(UpdateClose(t, m)) == SumRealized(t) + (if HasCid(t, m.cid) then m.realizedPnl else 0.0)
  {
    if t != [] {
      var front, r := t[..|t| - 1], t[|t| - 1];
      UpdateSum(front, m);
      assert UpdateClose(t, m)[..|t| - 1] == UpdateClose(front, m);
      assert t == front + [r];
      HasCidAppend(front, r, m.cid);
    }
  }

  lemma CloseKeepsRest(t: Table, m: TradeMsg, k: nat)
    requires m.Closed? && UniqueRows(t) && k < |t| && t[k].cid == m.cid
    ensures forall i :: 0 <= i < |t| && i != k ==> UpdateClose(t, m)[i] == t[i]
    ensures UpdateClose(t, m)[k].exit.Some?
    ensures forall cid :: HasCid(UpdateClose(t, m), cid) <==> HasCid(t, cid)
  {
    var t' := UpdateClose(t, m);
    assert forall i :: 0 <= i < |t| ==> t'[i].cid == t[i].cid;
    forall cid ensures HasCid(t', cid) <==> HasCid(t, cid) {
      if HasCid(t, cid) {
        var i :| 0 <= i < |t| && t[i].cid == cid;
        assert t'[i].cid == cid;
      }
    }
  }

  predicate KeyedBySymbol(book: map<Symbol, TradeMsg>) {
    forall symbol :: symbol in book ==> book[symbol].Executed? && book[symbol].symbol == symbol
  }

  lemma CloseBookRows(t: Table, m: TradeMsg, book: map<Symbol, TradeMsg>, k: nat)
    requires OpenRowsAreTheBook(t, book) && UniqueRows(t) && KeyedBySymbol(book)
    requires m.Closed? && m.symbol in book && book[m.symbol].cid == m.cid
    requires k < |t| && Matches(t[k], book[m.symbol])
    ensures OpenRowsAreTheBook(UpdateClose(t, m), book - {m.symbol})
  {
    var t', book' := UpdateClose(t, m), book - {m.symbol};
    CloseKeepsRest(t, m, k);
    forall i | 0 <= i < |t'| && t'[i].exit.None? ensures t'[i].symbol in book' && Matches(t'[i], book'[t'[i].symbol]) {
      assert i != k && t'[i] == t[i];
      assert Matches(t[i], book[t[i].symbol]);
    }
    forall symbol | symbol in book' ensures exists i :: 0 <= i < |t'| && Matches(t'[i], book'[symbol]) {
      var i :| 0 <= i < |t| && Matches(t[i], book[symbol]);
      assert t[i].symbol == symbol && t[k].symbol == m.symbol;
      assert Matches(t'[i], book'[symbol]);
    }
  }

  lemma CloseAgrees(trades: seq<TradeMsg>, m: TradeMsg, t: Table, book: map<Symbol, TradeMsg>)
    requires Agrees(trades, t, book) && m.Closed? && m.symbol in book && book[m.symbol].cid == m.cid
    ensures Agrees(trades + [m], UpdateClose(t, m), book - {m.symbol})
  {
    var k :| 0 <= k < |t| && Matches(t[k], book[m.symbol]);
    CloseKeepsRest(t, m, k);
    CloseBookRows(t, m, book, k);
    UpdateSum(t, m);
    assert (trades + [m])[..|trades + [m]| - 1] == trades;
    forall cid ensures HasCid(UpdateClose(t, m), cid) <==> ExecutedCid(trades + [m], cid) {
      ExecutedCidAppend(trades, m, cid);
    }
  }

  /** Draining any log that replays, with distinct correlation ids, gives a table in agreement with it. */
  lemma {:induction false} DrainAgrees(trades: seq<TradeMsg>)
    requires Replay(trades).Some? && DistinctCids(trades)
    ensures Agrees(trades, Drain(trades), Replay(trades).value)
  {
    if trades != [] {
      var past, m := trades[..|trades| - 1], trades[|trades| - 1];
      DrainAgrees(past);
      assert past + [m] == trades;
      match m
      case Executed(_, _, _, _, _, _, _, _, _) =>
        InsertAgrees(past, m, Drain(past), Replay(past).value);
      case Closed(_, _, _, _, _, _, _, _) =>
        CloseAgrees(past, m, Drain(past), Replay(past).value);
    }
  }

  // ----- Fees -----

  predicate ExecutedWith(trades: seq<TradeMsg>, cid: Cid, entryFee: real) {
    exists i :: 0 <= i < |trades| && trades[i].Executed? && trades[i].cid == cid && trades[i].fees == entryFee
  }

  predicate ClosedWith(trades: seq<TradeMsg>, cid: Cid, exitFee: real, x: Exit) {
    exists i :: 0 <= i < |trades| && trades[i].Closed? && trades[i].cid == cid && trades[i].exitFees == exitFee
      && x == Exit(trades[i].exitPrice, trades[i].reason, trades[i].realizedPnl, trades[i].fundingPaid)
  }

  /** The row's fees are the entry fee, plus the exit fee once the trade is closed; and its exit columns
      are those of the close message. */
  ghost predicate FeesOk(trades: seq<TradeMsg>, r: Row) {
    match r.exit
    case None => ExecutedWith(trades, r.cid, r.fees)
    case Some(x) =>
      exists entryFee, exitFee {:trigger ExecutedWith(trades, r.cid, entryFee), ClosedWith(trades, r.cid, exitFee, x)} ::
        ExecutedWith(trades, r.cid, entryFee) && ClosedWith(trades, r.cid, exitFee, x) && r.fees == entryFee + exitFee
  }

  lemma FeesOkAppend(trades: seq<TradeMsg>, m: TradeMsg, r: Row)
    requires FeesOk(trades, r)
    ensures FeesOk(trades + [m], r)
  {
    ExecutedWithAppend(trades, m, r.cid);
    if r.exit.Some? {
      var entryFee, exitFee :|
        ExecutedWith(trades, r.cid, entryFee) && ClosedWith(trades, r.cid, exitFee, r.exit.value) && r.fees == entryFee + exitFee;
      var i :| 0 <= i < |trades| && trades[i].Closed? && trades[i].cid == r.cid && trades[i].exitFees == exitFee
        && r.exit.value == Exit(trades[i].exitPrice, trades[i].reason, trades[i].realizedPnl, trades[i].fundingPaid);
      assert (trades + [m])[i] == trades[i];
      assert ClosedWith(trades + [m], r.cid, exitFee, r.exit.value);
    }
  }

  lemma ExecutedWithAppend(trades: seq<TradeMsg>, m: TradeMsg, cid: Cid)
    ensures forall fee :: ExecutedWith(trades, cid, fee) ==> ExecutedWith(trades + [m], cid, fee)
  {
    forall fee | ExecutedWith(trades, cid, fee) ensures ExecutedWith(trades + [m], cid, fee) {
      var i :| 0 <= i < |trades| && trades[i].Executed? && trades[i].cid == cid && trades[i].fees == fee;
      assert (trades + [m])[i] == trades[i];
    }
  }

  lemma CloseFees(trades: seq<TradeMsg>, m: TradeMsg, r: Row)
    requires m.Closed? && r.exit.None? && r.cid == m.cid && FeesOk(trades, r)
    ensures FeesOk(trades + [m], CloseRow(r, m))
  {
    ExecutedWithAppend(trades, m, r.cid);
    var x := Exit(m.exitPrice, m.reason, m.realizedPnl, m.fundingPaid);
    assert (trades + [m])[|trades|] == m;
    assert ClosedWith(trades + [m], m.cid, m.exitFees, x);
    assert ExecutedWith(trades + [m], r.cid, r.fees);
  }

  lemma {:induction false} DrainFees(trades: seq<TradeMsg>)
    requires Replay(trades).Some? && DistinctCids(trades)
    ensures forall i :: 0 <= i < |Drain(trades)| ==> FeesOk(trades, Drain(trades)[i])
  {
    if trades != [] {
      var past, m := trades[..|trades| - 1], trades[|trades| - 1];
      DrainFees(past);
      DrainAgrees(past);
      assert past + [m] == trades;
      var t, t' := Drain(past), Drain(trades);
      forall i | 0 <= i < |t'| ensures FeesOk(trades, t'[i]) {
        if i < |t| { FeesOkAppend(past, m, t[i]); }
        match m
        case Executed(_, _, _, _, _, _, _, _, _) =>
          if i == |t| {
            assert trades[|past|] == m;
            assert ExecutedWith(trades, m.cid, m.fees);
          }
        case Closed(_, _, _, _, _, _, _, _) =>
          if t[i].cid == m.cid {
            var k :| 0 <= k < |t| && Matches(t[k], Replay(past).value[m.symbol]);
            assert i == k;
            CloseFees(past, m, t[i]);
          }
      }
    }
  }

  // ----- Engine runs whose signals carry distinct correlation ids -----

  predicate DistinctSignals(events: seq<Event>) {
    forall i, j :: 0 <= i < j < |events| && events[i].SignalArrives? && events[j].SignalArrives?
      ==> events[i].signal.cid != events[j].signal.cid
  }

  predicate SignalCid(events: seq<Event>, cid: Cid) {
    exists i :: 0 <= i < |events| && events[i].SignalArrives? && events[i].signal.cid == cid
  }

  predicate ExecutionsAnswerSignals(events: seq<Event>, trades: seq<TradeMsg>) {
    forall i :: 0 <= i < |trades| && trades[i].Executed? ==> SignalCid(events, trades[i].cid)
  }

  /** Every execution answers a signal of the run, and distinct signals give distinct executions. */
  lemma {:induction false} RunCids(cfg: Config, events: seq<Event>)
    requires DistinctSignals(events)
    ensures DistinctCids(Run(cfg, events).trades)
    ensures ExecutionsAnswerSignals(events, Run(cfg, events).trades)
  {
    if events != [] {
      var past, ev := events[..|events| - 1], events[|events| - 1];
      RunCids(cfg, past);
      FlipNeverReopens(cfg, past);
      var s, s' := Run(cfg, past), Run(cfg, events);
      var e := StepEffect(cfg, s, ev);
      forall i | 0 <= i < |s'.trades| && s'.trades[i].Executed? ensures SignalCid(events, s'.trades[i].cid) {
        if i < |s.trades| {
          assert SignalCid(past, s.trades[i].cid);
          var j :| 0 <= j < |past| && past[j].SignalArrives? && past[j].signal.cid == s.trades[i].cid;
          assert events[j] == past[j];
        } else {
          assert events[|past|] == ev;
        }
      }
      forall i, j | 0 <= i < j < |s'.trades| && s'.trades[i].Executed? && s'.trades[j].Executed?
        ensures s'.trades[i].cid != s'.trades[j].cid
      {
        if j == |s.trades| {
          assert s'.trades[i] == s.trades[i] && SignalCid(past, s.trades[i].cid);
          var k :| 0 <= k < |past| && past[k].SignalArrives? && past[k].signal.cid == s.trades[i].cid;
          assert events[k].signal.cid != events[|past|].signal.cid;
        }
      }
    }
  }

  // ----- Rows against positions, field by field -----

  /** The row shows the position, still open. */
  predicate Shows(r: Row, p: Position) {
    && r.cid == p.cid && r.symbol == p.symbol && r.side == p.side && r.qty == p.qty && r.entryPrice == p.entryPrice
    && r.leverage == p.leverage && r.sl == p.sl && r.tp == p.tp && r.fees == p.fees && r.exit == None
  }

  predicate ShowsBook(t: Table, book: Book) {
    && (forall i :: 0 <= i < |t| && t[i].exit == None ==> t[i].symbol in book && Shows(t[i], book[t[i].symbol]))
    && (forall symbol :: symbol in book ==> exists i :: 0 <= i < |t| && Shows(t[i], book[symbol]))
  }

  lemma {:induction false} RowsShowPositions(t: Table, book: Book)
    requires OpenRowsAreTheBook(t, ExecutedBook(book))
    ensures ShowsBook(t, book)
  {
    forall symbol | symbol in book ensures exists i :: 0 <= i < |t| && Shows(t[i], book[symbol]) {
      assert symbol in ExecutedBook(book);
      var i :| 0 <= i < |t| && Matches(t[i], ExecutedBook(book)[symbol]);
      assert Shows(t[i], book[symbol]);
    }
  }

  /** The row's figures fit together: fees of both fills at the taker rate, and a realized result that is the gain
      between the two prices less those fees. */
  predicate AddsUp(taker: real, r: Row) {
    match r.exit
    case None => r.fees == taker * (r.qty * r.entryPrice)
    case Some(x) =>
      && r.fees == taker * (r.qty * r.entryPrice) + taker * (r.qty * x.exitPrice)
      && x.fundingPaid == 0.0
      && x.realizedPnl == (match r.side
                           case Long => r.qty * x.exitPrice - r.qty * r.entryPrice
                           case Short => r.qty * r.entryPrice - r.qty * x.exitPrice) - r.fees
  }

  predicate AllAddUp(taker: real, t: Table) {
    forall i :: 0 <= i < |t| ==> AddsUp(taker, t[i])
  }

  lemma OpenAddsUp(cfg: Config, t: Table, m: TradeMsg, marks: map<Symbol, real>, sig: Signal, now: real, p: Position)
    requires AllAddUp(cfg.taker, t) && FromSignal(cfg, marks, sig, now, p) && AnnouncedBy(m, p)
    ensures AllAddUp(cfg.taker, Consume(t, m))
  {
  }

  lemma CloseAddsUp(cfg: Config, t: Table, m: TradeMsg, p: Position, paid: real, k: nat)
    requires AllAddUp(cfg.taker, t) && UniqueRows(t) && k < |t| && Shows(t[k], p) && ClosedAt(cfg, p, m, paid)
    ensures AllAddUp(cfg.taker, Consume(t, m))
  {
    CloseKeepsRest(t, m, k);
    RowAddsUp(cfg, t[k], m, p, paid);
  }

  lemma RowAddsUp(cfg: Config, r: Row, m: TradeMsg, p: Position, paid: real)
    requires AddsUp(cfg.taker, r) && Shows(r, p) && ClosedAt(cfg, p, m, paid)
    ensures AddsUp(cfg.taker, CloseRow(r, m))
  {
  }

  lemma DrainAppend(trades: seq<TradeMsg>, m: TradeMsg)
    ensures Drain(trades + [m]) == Consume(Drain(trades), m)
  {
    assert (trades + [m])[..|trades + [m]| - 1] == trades;
  }

  lemma OneMore(trades: seq<TradeMsg>, longer: seq<TradeMsg>)
    requires |longer| == |trades| + 1 && longer[..|trades|] == trades
    ensures longer == trades + [longer[|trades|]]
  {
  }

  /** Every row of every run with distinct ids adds up. */
  lemma {:induction false} RowsAddUp(cfg: Config, events: seq<Event>)
    requires DistinctSignals(events)
    ensures AllAddUp(cfg.taker, Drain(Run(cfg, events).trades))
  {
    if events != [] {
      var past, ev := events[..|events| - 1], events[|events| - 1];
      RowsAddUp(cfg, past);
      var s, s' := Run(cfg, past), Run(cfg, events);
      if Opens(cfg, s, ev) {
        OpensWhatIsAsked(cfg, past, ev);
        OneMore(s.trades, s'.trades);
        DrainAppend(s.trades, s'.trades[|s.trades|]);
        OpenAddsUp(cfg, Drain(s.trades), s'.trades[|s.trades|], s.marks, ev.signal, ev.now,
                   s'.acct.positions[ev.signal.symbol]);
      } else if Closes(cfg, s, ev) {
        CloseIsLogged(cfg, past, ev);
        CloseStepAddsUp(cfg, past, s');
      } else {
        var e := StepEffect(cfg, s, ev);
      }
    }
  }

  lemma {:induction false} OpenRow(cfg: Config, events: seq<Event>, symbol: Symbol) returns (k: nat)
    requires DistinctSignals(events) && symbol in Run(cfg, events).acct.positions
    ensures UniqueRows(Drain(Run(cfg, events).trades)) && k < |Drain(Run(cfg, events).trades)|
    ensures Shows(Drain(Run(cfg, events).trades)[k], Run(cfg, events).acct.positions[symbol])
  {
    RunCids(cfg, events);
    RunSound(cfg, events);
    DrainAgrees(Run(cfg, events).trades);
    RowsShowPositions(Drain(Run(cfg, events).trades), Run(cfg, events).acct.positions);
    k :| k < |Drain(Run(cfg, events).trades)|
         && Shows(Drain(Run(cfg, events).trades)[k], Run(cfg, events).acct.positions[symbol]);
  }

  /** The log has grown by the close of an open position. */
  predicate CloseLogged(cfg: Config, s: State, s': State) {
    && |s'.trades| == |s.trades| + 1 && s'.trades[..|s.trades|] == s.trades
    && (var m := s'.trades[|s.trades|];
        && m.symbol in s.acct.positions
        && ClosedAt(cfg, s.acct.positions[m.symbol], m, s'.acct.balance - s.acct.balance))
  }

  lemma {:induction false} CloseIsLogged(cfg: Config, events: seq<Event>, ev: Event)
    requires Closes(cfg, Run(cfg, events), ev)
    ensures CloseLogged(cfg, Run(cfg, events), Next(cfg, Run(cfg, events), ev))
  {
    ClosesWhatWasOpen(cfg, events, ev);
  }

  lemma {:induction false} CloseStepAddsUp(cfg: Config, past: seq<Event>, s': State)
    requires DistinctSignals(past) && CloseLogged(cfg, Run(cfg, past), s')
    requires AllAddUp(cfg.taker, Drain(Run(cfg, past).trades))
    ensures AllAddUp(cfg.taker, Drain(s'.trades))
  {
    var s := Run(cfg, past);
    var k := OpenRow(cfg, past, s'.trades[|s.trades|].symbol);
    CloseAppends(cfg, s, s', k);
  }

  lemma CloseAppends(cfg: Config, s: State, s': State, k: nat)
    requires CloseLogged(cfg, s, s')
    requires var t := Drain(s.trades);
             && AllAddUp(cfg.taker, t) && UniqueRows(t) && k < |t|
             && Shows(t[k], s.acct.positions[s'.trades[|s.trades|].symbol])
    ensures AllAddUp(cfg.taker, Drain(s'.trades))
  {
    var m := s'.trades[|s.trades|];
    OneMore(s.trades, s'.trades);
    DrainAppend(s.trades, m);
    CloseAddsUp(cfg, Drain(s.trades), m, s.acct.positions[m.symbol], s'.acct.balance - s.acct.balance, k);
  }

  /** The main result. After draining the trade log of any run whose signals carry distinct ids: ids in
      the table are unique and are those of the executed trades; the open rows are exactly the open
      positions with their data; fees are entry fee plus, once closed, exit fee; cash plus margins and entry
      fees of open positions is the starting balance plus the sum of realized PnL over the table, so when the
      account is flat that is its balance. */
  lemma {:induction false} TableAgreesWithAccount(cfg: Config, events: seq<Event>)
    requires DistinctSignals(events)
    ensures var s := Run(cfg, events); var t := Drain(s.trades);
            && UniqueRows(t)
            && (forall cid :: HasCid(t, cid) <==> ExecutedCid(s.trades, cid))
            && OpenRowsAreTheBook(t, ExecutedBook(s.acct.positions))
            && ShowsBook(t, s.acct.positions)
            && AllAddUp(cfg.taker, t)
            && (forall i :: 0 <= i < |t| ==> FeesOk(s.trades, t[i]))
            && s.acct.Ledger() == cfg.risk.startingBalance + SumRealized(t)
            && (s.acct.positions == map[] ==> s.acct.balance == cfg.risk.startingBalance + SumRealized(t))
  {
    RunCids(cfg, events);
    RunSound(cfg, events);
    DrainAgrees(Run(cfg, events).trades);
    DrainFees(Run(cfg, events).trades);
    RowsShowPositions(Drain(Run(cfg, events).trades), Run(cfg, events).acct.positions);
    RowsAddUp(cfg, events);
  }

  // ----- The mutable table and its subscriber -----

  class PostgresWriter {
    var trades: Table

    constructor ()
      ensures trades == []
    {
      trades := [];
    }

    method InsertTradeOpen(m: TradeMsg)
      requires m.Executed?
      modifies this
      ensures trades == InsertOpen(old(trades), m)
    {
      if !HasCid(trades, m.cid) {
        trades := trades + [Row(m.cid, m.symbol, m.side, m.qty, m.entryPrice, m.leverage, m.sl, m.tp, m.fees, None)];
      }
    }

    method UpdateTradeClose(m: TradeMsg)
      requires m.Closed?
      modifies this
      ensures trades == UpdateClose(old(trades), m)
    {
      var i := 0;
      while i < |trades|
        invariant 0 <= i <= |trades| == |old(trades)|
        invariant forall k :: 0 <= k < |trades| ==>
          trades[k] == if k < i then CloseRow(old(trades)[k], m) else old(trades)[k]
      {
        if trades[i].cid == m.cid {
          trades := trades[i := trades[i].(exit := Some(Exit(m.exitPrice, m.reason, m.realizedPnl, m.fundingPaid)),
                                           fees := trades[i].fees + m.exitFees)];
        }
        i := i + 1;
      }
    }
  }

  /** The consumer loop over the trade topics. */
  method ConsumeTrades(pg: PostgresWriter, log: seq<TradeMsg>)
    requires pg.trades == []
    modifies pg
    ensures pg.trades == Drain(log)
  {
    var i := 0;
    while i < |log|
      invariant 0 <= i <= |log|
      invariant pg.trades == Drain(log[..i])
    {
      if log[i].Executed? {
        pg.InsertTradeOpen(log[i]);
      } else {
        pg.UpdateTradeClose(log[i]);
      }
      assert log[..i + 1][..i] == log[..i];
      i := i + 1;
    }
    assert log[..i] == log;
  }
}
