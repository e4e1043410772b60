/** papertrade/account.py: the account as a value, its ledger, and the class that mutates it. */
module PaperAccount {
  import opened Messages
  import opened TradeMath

  datatype Position = Position(symbol: Symbol, side: Side, qty: real, entryPrice: real, leverage: int,
                               sl: real, tp: real, margin: real, liqPrice: real, fees: real, cid: Cid,
                               markPrice: real, fundingPaid: real, openedAt: real)
  {
    /** A mark price of zero means that no mark has been seen yet. */
    function UnrealizedPnl(): real {
      if markPrice == 0.0 then 0.0 else Pnl(qty, entryPrice, markPrice, side)
    }
  }

  type Book = map<Symbol, Position>

  /** The quantities of a position that get summed over the whole book. */
  datatype Measure = Margin | Fees | Unrealized | Funding

  function Value(m: Measure, p: Position): real {
    match m
    case Margin => p.margin
    case Fees => p.fees
    case Unrealized => p.UnrealizedPnl()
    case Funding => p.fundingPaid
  }

  ghost function Total(m: Measure, book: Book): real {
    if book == map[] then 0.0
    else
      var k :| k in book;
      Value(m, book[k]) + Total(m, book - {k})
  }

  lemma {:induction false} TotalRemove(m: Measure, book: Book, k: Symbol)
    requires k in book
    ensures Total(m, book) == Value(m, book[k]) + Total(m, book - {k})
    decreases |book|
  {
    var j :| j in book && Total(m, book) == Value(m, book[j]) + Total(m, book - {j});
    if j != k {
      TotalRemove(m, book - {j}, k);
      TotalRemove(m, book - {k}, j);
      assert book - {j} - {k} == book - {k} - {j};
    }
  }

  lemma TotalInsert(m: Measure, book: Book, k: Symbol, p: Position)
    ensures Total(m, book[k := p])
         == Total(m, book) + Value(m, p) - (if k in book then Value(m, book[k]) else 0.0)
  {
    TotalRemove(m, book[k := p], k);
    assert book[k := p] - {k} == book - {k};
    if k in book {
      TotalRemove(m, book, k);
    } else {
      assert book - {k} == book;
    }
  }

  datatype AccountState = AccountState(balance: real, positions: Book) {
    /** Cash plus unrealized PnL. The margin locked in open positions is not part of it. */
    ghost function Equity(): real {
      balance + Total(Unrealized, positions)
    }

    function Open(pos: Position): AccountState {
      AccountState(balance - (pos.margin + pos.fees), positions[pos.symbol := pos])
    }

    /** Removes the position and pays out margin, gross PnL and the funding total. */
    function Close(symbol: Symbol, exitPrice: real, exitFees: real): AccountState
      requires symbol in positions
    {
      var pos := positions[symbol];
      AccountState(
        balance + (pos.margin + Pnl(pos.qty, pos.entryPrice, exitPrice, pos.side) - exitFees + pos.fundingPaid),
        positions - {symbol})
    }

    /** The figure `Close` reports: PnL net of entry and exit fees. */
    function NetPnl(symbol: Symbol, exitPrice: real, exitFees: real): real
      requires symbol in positions
    {
      var pos := positions[symbol];
      Pnl(pos.qty, pos.entryPrice, exitPrice, pos.side) - pos.fees - exitFees
    }

    function ApplyFunding(symbol: Symbol, delta: real): AccountState {
      if symbol in positions then
        var pos := positions[symbol];
        AccountState(balance + delta, positions[symbol := pos.(fundingPaid := pos.fundingPaid + delta)])
      else this
    }

    function UpdateMark(symbol: Symbol, mark: real): AccountState {
      if symbol in positions then
        this.(positions := positions[symbol := positions[symbol].(markPrice := mark)])
      else this
    }

    /** Cash, margin still locked, and entry fees whose trade is still open. */
    ghost function Ledger(): real {
      balance + Total(Margin, positions) + Total(Fees, positions)
    }
  }

  // ----- What each operation does to the ledger -----

  lemma OpenLedger(a: AccountState, pos: Position)
    ensures a.Open(pos).Ledger() == a.Ledger()
      - (if pos.symbol in a.positions then a.positions[pos.symbol].margin + a.positions[pos.symbol].fees else 0.0)
  {
    TotalInsert(Margin, a.positions, pos.symbol, pos);
    TotalInsert(Fees, a.positions, pos.symbol, pos);
  }

  lemma CloseLedger(a: AccountState, symbol: Symbol, exitPrice: real, exitFees: real)
    requires symbol in a.positions
    ensures a.Close(symbol, exitPrice, exitFees).Ledger()
         == a.Ledger() + a.NetPnl(symbol, exitPrice, exitFees) + a.positions[symbol].fundingPaid
  {
    TotalRemove(Margin, a.positions, symbol);
    TotalRemove(Fees, a.positions, symbol);
  }

  lemma MarkLedger(a: AccountState, symbol: Symbol, mark: real)
    ensures a.UpdateMark(symbol, mark).Ledger() == a.Ledger()
  {
    if symbol in a.positions {
      TotalInsert(Margin, a.positions, symbol, a.positions[symbol].(markPrice := mark));
      TotalInsert(Fees, a.positions, symbol, a.positions[symbol].(markPrice := mark));
    }
  }

  lemma FundingLedger(a: AccountState, symbol: Symbol, delta: real)
    ensures a.ApplyFunding(symbol, delta).Ledger() == a.Ledger() + (if symbol in a.positions then delta else 0.0)
  {
    if symbol in a.positions {
      var pos := a.positions[symbol];
      TotalInsert(Margin, a.positions, symbol, pos.(fundingPaid := pos.fundingPaid + delta));
      TotalInsert(Fees, a.positions, symbol, pos.(fundingPaid := pos.fundingPaid + delta));
    }
  }

  /** The totals are the sums of the fields they are named after. */
  lemma TotalsAreSums(book: Book, k: Symbol)
    requires k in book
    ensures Total(Margin, book) == book[k].margin + Total(Margin, book - {k})
    ensures Total(Fees, book) == book[k].fees + Total(Fees, book - {k})
    ensures Total(Margin, map[]) == 0.0 && Total(Fees, map[]) == 0.0
  {
    TotalRemove(Margin, book, k);
    TotalRemove(Fees, book, k);
  }

  // ----- What equity means -----

  /** Closing a marked position at its mark, free of charge, turns its part of the equity into cash and frees its
      margin (and pays out its funding total). */
  lemma EquityIsCloseValue(a: AccountState, symbol: Symbol)
    requires symbol in a.positions && a.positions[symbol].markPrice != 0.0
    ensures var p := a.positions[symbol];
            a.Close(symbol, p.markPrice, 0.0).Equity() == a.Equity() + p.margin + p.fundingPaid
  {
    TotalRemove(Unrealized, a.positions, symbol);
  }

  /** A position without a mark adds nothing, and an account without positions is worth its cash. */
  lemma UnmarkedAddsNothing(a: AccountState, symbol: Symbol)
    ensures a.positions == map[] ==> a.Equity() == a.balance
    ensures symbol in a.positions && a.positions[symbol].markPrice == 0.0 ==>
              a.Equity() == AccountState(a.balance, a.positions - {symbol}).Equity()
  {
    if symbol in a.positions {
      TotalRemove(Unrealized, a.positions, symbol);
    }
  }

  // ----- Whole histories of account operations -----

  datatype Op =
    | OpenOp(pos: Position)
    | CloseOp(symbol: Symbol, exitPrice: real, exitFees: real)
    | FundingOp(symbol: Symbol, delta: real)
    | MarkOp(symbol: Symbol, mark: real)

  /** Closing a symbol that is not open raises before anything changes. */
  function Apply(a: AccountState, op: Op): AccountState {
    match op
    case OpenOp(pos) => a.Open(pos)
    case CloseOp(symbol, x, f) => if symbol in a.positions then a.Close(symbol, x, f) else a
    case FundingOp(symbol, d) => a.ApplyFunding(symbol, d)
    case MarkOp(symbol, m) => a.UpdateMark(symbol, m)
  }

  function After(a: AccountState, ops: seq<Op>): AccountState {
    if ops == [] then a else Apply(After(a, ops[..|ops| - 1]), ops[|ops| - 1])
  }

  /** Money moved by a history, told apart by cause. `fundingRepaid` is the funding total that a
      close pays out although every funding payment was already booked when it was applied. */
  datatype Flows = Flows(net: real, funding: real, fundingRepaid: real, overwritten: real)

  function StepFlows(a: AccountState, op: Op): Flows {
    match op
    case OpenOp(pos) =>
      Flows(0.0, 0.0, 0.0,
            if pos.symbol in a.positions then a.positions[pos.symbol].margin + a.positions[pos.symbol].fees else 0.0)
    case CloseOp(symbol, x, f) =>
      if symbol in a.positions
      then Flows(a.NetPnl(symbol, x, f), 0.0, a.positions[symbol].fundingPaid, 0.0)
      else Flows(0.0, 0.0, 0.0, 0.0)
    case FundingOp(symbol, d) => Flows(0.0, if symbol in a.positions then d else 0.0, 0.0, 0.0)
    case MarkOp(_, _) => Flows(0.0, 0.0, 0.0, 0.0)
  }

  function FlowsOf(a: AccountState, ops: seq<Op>): Flows {
    if ops == [] then Flows(0.0, 0.0, 0.0, 0.0)
    else
      var past := FlowsOf(a, ops[..|ops| - 1]);
      var f := StepFlows(After(a, ops[..|ops| - 1]), ops[|ops| - 1]);
      Flows(past.net + f.net, past.funding + f.funding, past.fundingRepaid + f.fundingRepaid,
            past.overwritten + f.overwritten)
  }

  /** The exact ledger of every history of operations, from every starting balance: cash plus locked
      margin plus open entry fees equals the start plus net results plus funding, plus the funding
      that closes pay a second time, minus whatever an overwriting open drops. */
  lemma {:induction false} LedgerOfHistory(start: real, ops: seq<Op>)
    ensures var a := AccountState(start, map[]); var f := FlowsOf(a, ops);
            After(a, ops).Ledger() == start + f.net + f.funding + f.fundingRepaid - f.overwritten
  {
    var a := AccountState(start, map[]);
    if ops != [] {
      LedgerOfHistory(start, ops[..|ops| - 1]);
      var b := After(a, ops[..|ops| - 1]);
      match ops[|ops| - 1]
      case OpenOp(pos) => OpenLedger(b, pos);
      case CloseOp(symbol, x, fee) => if symbol in b.positions { CloseLedger(b, symbol, x, fee); }
      case FundingOp(symbol, d) => FundingLedger(b, symbol, d);
      case MarkOp(symbol, m) => MarkLedger(b, symbol, m);
    }
  }

  /** A close ought to pay out margin, PnL and fees, the funding having been booked when it was applied. It
      does exactly when the position never accumulated any. */
  lemma ClosePaysOnceIff(a: AccountState, symbol: Symbol, exitPrice: real, exitFees: real)
    requires symbol in a.positions
    ensures var pos := a.positions[symbol];
            a.Close(symbol, exitPrice, exitFees).balance - a.balance
              == Credit(pos.qty, pos.entryPrice, exitPrice, pos.side, pos.margin, 0.0) - exitFees
            <==> pos.fundingPaid == 0.0
  {
  }

  /** The ledger after a history with all funding booked once. */
  ghost predicate BookedOnce(start: real, ops: seq<Op>) {
    var a := AccountState(start, map[]);
    After(a, ops).Ledger() == start + FlowsOf(a, ops).net + FlowsOf(a, ops).funding - FlowsOf(a, ops).overwritten
  }

  /** Funding is booked once over a history exactly when the funding totals of its closed positions cancel. */
  lemma FundingBookedOnceIff(start: real, ops: seq<Op>)
    ensures BookedOnce(start, ops) <==> FlowsOf(AccountState(start, map[]), ops).fundingRepaid == 0.0
  {
    LedgerOfHistory(start, ops);
  }

  ghost predicate AlwaysBookedOnce(start: real, ops: seq<Op>) {
    BookedOnce(start, ops) && (ops != [] ==> AlwaysBookedOnce(start, ops[..|ops| - 1]))
  }

  /** The guard a caller could check before closing: the position has no funding on it. */
  predicate UnfundedClose(a: AccountState, op: Op) {
    op.CloseOp? && op.symbol in a.positions ==> a.positions[op.symbol].fundingPaid == 0.0
  }

  predicate UnfundedCloses(start: real, ops: seq<Op>) {
    ops == [] ||
    (&& UnfundedCloses(start, ops[..|ops| - 1])
     && UnfundedClose(After(AccountState(start, map[]), ops[..|ops| - 1]), ops[|ops| - 1]))
  }

  /** For every history, overwriting opens included: the books are right after each of its operations if and only
      if every position it closes has no funding on it. */
  lemma {:induction false} AlwaysBookedOnceIff(start: real, ops: seq<Op>)
    ensures AlwaysBookedOnce(start, ops) <==> UnfundedCloses(start, ops)
    ensures UnfundedCloses(start, ops) ==> FlowsOf(AccountState(start, map[]), ops).fundingRepaid == 0.0
  {
    FundingBookedOnceIff(start, ops);
    if ops != [] {
      AlwaysBookedOnceIff(start, ops[..|ops| - 1]);
      FundingBookedOnceIff(start, ops[..|ops| - 1]);
    }
  }

  /** One funding payment of -1/2 and a close: the account has paid it twice. */
  lemma FundingBookedTwice(pos: Position)
    requires pos.symbol == "BTCUSDT" && pos.fundingPaid == 0.0
    ensures var a := AccountState(1000.0, map[]);
            var ops := [OpenOp(pos), FundingOp("BTCUSDT", -0.5), CloseOp("BTCUSDT", pos.entryPrice, 0.0)];
            After(a, ops).balance == 1000.0 - pos.fees - 1.0 && FlowsOf(a, ops).funding == -0.5
  {
    var a := AccountState(1000.0, map[]);
    var o1, o2, o3 := OpenOp(pos), FundingOp("BTCUSDT", -0.5), CloseOp("BTCUSDT", pos.entryPrice, 0.0);
    assert [o1][..0] == [] && [o1, o2][..1] == [o1] && [o1, o2, o3][..2] == [o1, o2];
    assert After(a, [o1]) == a.Open(pos);
    assert After(a, [o1, o2]) == a.Open(pos).ApplyFunding("BTCUSDT", -0.5);
    assert After(a, [o1, o2, o3]) == a.Open(pos).ApplyFunding("BTCUSDT", -0.5).Close("BTCUSDT", pos.entryPrice, 0.0);
    assert FlowsOf(a, [o1]).funding == 0.0;
    assert FlowsOf(a, [o1, o2]).funding == -0.5;
  }

  // ----- The mutable account -----

  class Account {
    var balance: real
    var openPositions: Book

    ghost function State(): AccountState
      reads this
    {
      AccountState(balance, openPositions)
    }

    constructor (startingBalance: real)
      ensures State() == AccountState(startingBalance, map[])
    {
      balance := startingBalance;
      openPositions := map[];
    }

    /** Sums the unrealized PnL position by position. */
    method Equity() returns (equity: real)
      ensures equity == State().Equity()
    {
      equity := balance;
      var rest := openPositions;
      while rest != map[]
        invariant equity + Total(Unrealized, rest) == State().Equity()
        decreases |rest|
      {
        var k :| k in rest;
        TotalRemove(Unrealized, rest, k);
        equity := equity + rest[k].UnrealizedPnl();
        rest := rest - {k};
      }
    }

    method Open(pos: Position)
      modifies this
      ensures State() == old(State()).Open(pos)
    {
      openPositions := openPositions[pos.symbol := pos];
      balance := balance - (pos.margin + pos.fees);
    }

    method Close(symbol: Symbol, exitPrice: real, exitFees: real) returns (net: real)
      requires symbol in openPositions
      modifies this
      ensures State() == old(State()).Close(symbol, exitPrice, exitFees)
      ensures net == old(State()).NetPnl(symbol, exitPrice, exitFees)
    {
      var pos := openPositions[symbol];
      openPositions := openPositions - {symbol};
      var pnl := Pnl(pos.qty, pos.entryPrice, exitPrice, pos.side);
      balance := balance + (pos.margin + pnl - exitFees + pos.fundingPaid);
      net := pnl - pos.fees - exitFees;
    }

    method ApplyFunding(symbol: Symbol, delta: real)
      modifies this
      ensures State() == old(State()).ApplyFunding(symbol, delta)
    {
      if symbol in openPositions {
        var pos := openPositions[symbol];
        openPositions := openPositions[symbol := pos.(fundingPaid := pos.fundingPaid + delta)];
        balance := balance + delta;
      }
    }

    method UpdateMark(symbol: Symbol, mark: real)
      modifies this
      ensures State() == old(State()).UpdateMark(symbol, mark)
    {
      if symbol in openPositions {
        openPositions := openPositions[symbol := openPositions[symbol].(markPrice := mark)];
      }
    }
  }
}
