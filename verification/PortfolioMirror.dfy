/** The portfolio agent keeps its own picture of the open positions by folding the position updates the
    engine publishes. This file proves exactly when that picture is right. */
module PortfolioMirror {
  import opened Options
  import opened Messages
  import opened PaperAccount
  import opened Guards
  import opened EngineSpec
  import opened EngineSafety
  import opened Breakers
  import opened EngineExamples

  datatype Snapshot = Snapshot(side: Side, qty: real, entryPrice: real, unrealizedPnl: real)

  type Mirror = map<Symbol, Snapshot>

  function OnUpdate(mirror: Mirror, u: PositionUpdate): Mirror {
    if u.isClosed then mirror - {u.symbol}
    else mirror[u.symbol := Snapshot(u.side, u.qty, u.entryPrice, u.unrealizedPnl)]
  }

  function MirrorOf(updates: seq<PositionUpdate>): Mirror {
    if updates == [] then map[]
    else OnUpdate(MirrorOf(updates[..|updates| - 1]), updates[|updates| - 1])
  }

  /** The cap check the agent makes before asking anybody. */
  predicate HardRejects(mirror: Mirror, maxPositions: int) {
    |mirror| >= maxPositions
  }

  /** Same trade: side, quantity and entry price. */
  predicate SameTrade(snap: Snapshot, p: Position) {
    snap.side == p.side && snap.qty == p.qty && snap.entryPrice == p.entryPrice
  }

  predicate Shows(mirror: Mirror, book: Book) {
    mirror.Keys == book.Keys && forall symbol :: symbol in book ==> SameTrade(mirror[symbol], book[symbol])
  }

  // ----- The race -----

  /** The close whose update the mark handler would publish on its next resumption: one with an admissible
      reason, unless a tripped daily breaker has to be reported first. */
  function Finishing(cfg: Config, s: State): Option<Closing> {
    match s.mark
    case MarkClosing(c) =>
      if Admissible(c.reason) && !s.daily.UpdatePnl(cfg.DailyThreshold(), c.netPnl).tripped then Some(c) else None
    case MarkTripped(c) => if Admissible(c.reason) then Some(c) else None
    case MarkIdle => None
    case MarkCrashed => None
  }

  /** Which open symbols the agent does not see, decided from the state before the step alone. A symbol
      becomes hidden when the mark handler finishes a close whose symbol is open again. It stops being so at
      the next mark for it that the handler takes, when the signal handler announces it, or when it is closed. */
  function HiddenStep(cfg: Config, hidden: set<Symbol>, s: State, ev: Event): set<Symbol> {
    match ev
    case SignalArrives(sig, _) => if Flips(s, sig) then hidden - {sig.symbol} else hidden
    case SignalResumes(_) => if s.sig.SignalExecuted? then hidden - {s.sig.symbol} else hidden
    case MarkArrives(symbol, _, _) => if s.mark.MarkIdle? then hidden - {symbol} else hidden
    case MarkResumes =>
      (match Finishing(cfg, s)
       case Some(c) => if c.pos.symbol in s.acct.positions then hidden + {c.pos.symbol} else hidden
       case None => hidden)
    case BreakersReset => hidden
  }

  /** The signal makes an idle handler close the position of its symbol. */
  predicate Flips(s: State, sig: Signal) {
    s.sig.SignalIdle? && sig.symbol in s.acct.positions && s.acct.positions[sig.symbol].side != sig.side
  }

  ghost function Hidden(cfg: Config, events: seq<Event>): set<Symbol> {
    if events == [] then {}
    else
      var past := events[..|events| - 1];
      HiddenStep(cfg, Hidden(cfg, past), Run(cfg, past), events[|events| - 1])
  }

  /** The mark handler has taken the symbol out of the account but not yet published that. */
  predicate MidClose(s: State, symbol: Symbol) {
    (s.mark.MarkClosing? || s.mark.MarkTripped?) && s.mark.c.pos.symbol == symbol
  }

  predicate Live(s: State) {
    (s.sig.SignalIdle? || s.sig.SignalExecuted?) && !s.mark.MarkCrashed?
  }

  predicate Quiescent(s: State) {
    s.sig.SignalIdle? && s.mark.MarkIdle?
  }

  /** What the mirror shows for one symbol, whatever the two handlers are in the middle of. */
  predicate Reflects(s: State, mirror: Mirror, hidden: set<Symbol>, symbol: Symbol) {
    var open := symbol in s.acct.positions;
    var announced := s.sig != SignalExecuted(symbol);
    if MidClose(s, symbol) then
      && symbol !in hidden
      && (open && announced ==> symbol in mirror && SameTrade(mirror[symbol], s.acct.positions[symbol]))
    else if !open || symbol in hidden then
      symbol !in mirror
    else
      announced ==> symbol in mirror && SameTrade(mirror[symbol], s.acct.positions[symbol])
  }

  ghost predicate Tracks(s: State, mirror: Mirror, hidden: set<Symbol>) {
    && hidden <= s.acct.positions.Keys
    && (Live(s) ==> forall symbol :: Reflects(s, mirror, hidden, symbol))
  }

  lemma FoldOne(updates: seq<PositionUpdate>, u: PositionUpdate)
    ensures MirrorOf(updates + [u]) == OnUpdate(MirrorOf(updates), u)
  {
    assert (updates + [u])[..|updates + [u]| - 1] == updates;
  }

  /** Appending an ordinary update for an open position shows that position. */
  lemma PublishReflects(s: State, mirror: Mirror, hidden: set<Symbol>, k: Symbol, symbol: Symbol)
    requires WellKeyed(s.acct.positions) && k in s.acct.positions
    requires symbol != k ==> Reflects(s, mirror, hidden, symbol)
    ensures Reflects(s, OnUpdate(mirror, OpenUpdate(s.acct.positions[k])), hidden - {k}, symbol)
  {
  }

  lemma OpenReflects(s: State, s': State, pos: Position, mirror: Mirror, hidden: set<Symbol>, symbol: Symbol)
    requires Reflects(s, mirror, hidden, symbol) && s.sig.SignalIdle? && hidden <= s.acct.positions.Keys
    requires pos.symbol !in s.acct.positions && s'.acct.positions == s.acct.positions[pos.symbol := pos]
    requires s'.sig == SignalExecuted(pos.symbol) && s'.mark == s.mark
    ensures Reflects(s', mirror, hidden, symbol)
  {
  }

  lemma TryOpenTracks(cfg: Config, s: State, sig: Signal, now: real, mirror: Mirror, hidden: set<Symbol>)
    requires sig.symbol !in s.acct.positions && s.sig.SignalIdle? && Tracks(s, mirror, hidden)
    ensures var s' := TryOpen(cfg, s, sig, now);
            s'.updates == s.updates && Tracks(s', mirror, hidden)
  {
    var s' := TryOpen(cfg, s, sig, now);
    var e := TryOpenEffect(cfg, s, sig, now);
    assert s'.mark == s.mark;
    if Live(s') {
      forall symbol ensures Reflects(s', mirror, hidden, symbol) {
        match e
        case Quiet(_, _) => Same(s, s', mirror, hidden, symbol);
        case Opened(_, _) =>
          OpenReflects(s, s', s'.acct.positions[sig.symbol], mirror, hidden, symbol);
      }
    }
  }

  /** The step of the signal handler that announces the position it has opened, if it is still there. */
  lemma ExecutedReflects(s: State, mirror: Mirror, hidden: set<Symbol>)
    requires WellKeyed(s.acct.positions) && Live(s) && s.sig.SignalExecuted? && Tracks(s, mirror, hidden)
    requires mirror == MirrorOf(s.updates)
    ensures var s' := PublishUpdate(s, s.sig.symbol).(sig := SignalIdle);
            Tracks(s', MirrorOf(s'.updates), hidden - {s.sig.symbol})
  {
    var k := s.sig.symbol;
    var s' := PublishUpdate(s, k).(sig := SignalIdle);
    if k in s.acct.positions {
      var u := OpenUpdate(s.acct.positions[k]);
      FoldOne(s.updates, u);
      forall symbol ensures Reflects(s', OnUpdate(mirror, u), hidden - {k}, symbol) {
        assert Reflects(s, mirror, hidden, symbol);
        if symbol != k { Announced(s, mirror, hidden, symbol); }
        PublishReflects(s.(sig := SignalIdle), mirror, hidden, k, symbol);
        Same(s.(sig := SignalIdle), s', OnUpdate(mirror, u), hidden - {k}, symbol);
      }
    } else {
      assert hidden - {k} == hidden;
      forall symbol ensures Reflects(s', mirror, hidden, symbol) {
        assert Reflects(s, mirror, hidden, symbol);
      }
    }
  }

  lemma Announced(s: State, mirror: Mirror, hidden: set<Symbol>, symbol: Symbol)
    requires s.sig.SignalExecuted? && s.sig.symbol != symbol && Reflects(s, mirror, hidden, symbol)
    ensures Reflects(s.(sig := SignalIdle), mirror, hidden, symbol)
  {
  }

  lemma Same(s: State, s': State, mirror: Mirror, hidden: set<Symbol>, symbol: Symbol)
    requires Reflects(s, mirror, hidden, symbol) && s'.acct == s.acct && s'.sig == s.sig && s'.mark == s.mark
    ensures Reflects(s', mirror, hidden, symbol)
  {
  }

  lemma MarkedReflects(s: State, s': State, mirror: Mirror, hidden: set<Symbol>, k: Symbol, price: real, symbol: Symbol)
    requires Reflects(s, mirror, hidden, symbol)
    requires s'.acct == s.acct.UpdateMark(k, price) && s'.sig == s.sig && s'.mark == s.mark
    ensures Reflects(s', mirror, hidden, symbol)
  {
  }

  lemma CloseReflects(s: State, s': State, mirror: Mirror, hidden: set<Symbol>, c: Closing, symbol: Symbol)
    requires Reflects(s, mirror, hidden, symbol) && s.mark.MarkIdle?
    requires s'.acct.positions == s.acct.positions - {c.pos.symbol} && s'.sig == s.sig && s'.mark == MarkClosing(c)
    ensures Reflects(s', mirror, hidden - {c.pos.symbol}, symbol)
  {
  }

  lemma MarkedTracks(s: State, k: Symbol, price: real, mirror: Mirror, hidden: set<Symbol>)
    requires Tracks(s, mirror, hidden)
    ensures Tracks(s.(marks := s.marks[k := price], acct := s.acct.UpdateMark(k, price)), mirror, hidden)
  {
    var t := s.(marks := s.marks[k := price], acct := s.acct.UpdateMark(k, price));
    assert t.acct.positions.Keys == s.acct.positions.Keys;
    if Live(s) {
      forall symbol ensures Reflects(t, mirror, hidden, symbol) {
        MarkedReflects(s, t, mirror, hidden, k, price, symbol);
      }
    }
  }

  lemma PublishTracks(t: State, k: Symbol, mirror: Mirror, hidden: set<Symbol>)
    requires Tracks(t, mirror, hidden) && mirror == MirrorOf(t.updates)
    requires WellKeyed(t.acct.positions) && k in t.acct.positions
    ensures var s' := PublishUpdate(t, k); Tracks(s', MirrorOf(s'.updates), hidden - {k})
  {
    var u := OpenUpdate(t.acct.positions[k]);
    var s' := t.(updates := t.updates + [u]);
    FoldOne(t.updates, u);
    if Live(s') {
      forall symbol ensures Reflects(s', OnUpdate(mirror, u), hidden - {k}, symbol) {
        PublishReflects(t, mirror, hidden, k, symbol);
        Same(t, s', OnUpdate(mirror, u), hidden - {k}, symbol);
      }
    }
  }

  lemma MarkReflects(cfg: Config, s: State, k: Symbol, price: real, now: real, mirror: Mirror, hidden: set<Symbol>)
    requires WellKeyed(s.acct.positions) && s.mark.MarkIdle? && Tracks(s, mirror, hidden)
    requires mirror == MirrorOf(s.updates)
    ensures var s' := OnMark(cfg, s, k, price, now);
            Tracks(s', MirrorOf(s'.updates), hidden - {k})
  {
    var s' := OnMark(cfg, s, k, price, now);
    var t := s.(marks := s.marks[k := price], acct := s.acct.UpdateMark(k, price));
    MarkedTracks(s, k, price, mirror, hidden);
    if k !in s.acct.positions {
      assert hidden - {k} == hidden;
    } else if ExitFor(t.acct.positions[k], price, now).None? {
      PublishTracks(t, k, mirror, hidden);
    } else {
      CloseStepReflects(t, s', s'.mark.c, mirror, hidden);
    }
  }

  lemma CloseStepReflects(t: State, s': State, c: Closing, mirror: Mirror, hidden: set<Symbol>)
    requires t.mark.MarkIdle? && Tracks(t, mirror, hidden)
    requires s'.acct.positions == t.acct.positions - {c.pos.symbol} && s'.sig == t.sig && s'.mark == MarkClosing(c)
    requires s'.updates == t.updates
    ensures Tracks(s', mirror, hidden - {c.pos.symbol})
  {
    if Live(s') {
      forall symbol ensures Reflects(s', mirror, hidden - {c.pos.symbol}, symbol) {
        CloseReflects(t, s', mirror, hidden, c, symbol);
      }
    }
  }

  lemma FinishReflects(s: State, c: Closing, mirror: Mirror, hidden: set<Symbol>)
    requires Tracks(s, mirror, hidden) && mirror == MirrorOf(s.updates)
    requires (s.mark.MarkClosing? || s.mark.MarkTripped?) && s.mark.c == c
    ensures var s' := FinishMarkClose(s, c);
            Tracks(s', MirrorOf(s'.updates),
                   if Admissible(c.reason) && c.pos.symbol in s.acct.positions then hidden + {c.pos.symbol} else hidden)
  {
    var s' := FinishMarkClose(s, c);
    var hidden' := if Admissible(c.reason) && c.pos.symbol in s.acct.positions then hidden + {c.pos.symbol} else hidden;
    FoldOne(s.updates, ClosedUpdate(c));
    if Live(s') {
      forall symbol ensures Reflects(s', MirrorOf(s'.updates), hidden', symbol) {
        assert Reflects(s, mirror, hidden, symbol);
      }
    }
  }

  lemma MarkResumeReflects(cfg: Config, s: State, mirror: Mirror, hidden: set<Symbol>)
    requires Tracks(s, mirror, hidden) && mirror == MirrorOf(s.updates)
    ensures var s' := OnMarkResume(cfg, s);
            Tracks(s', MirrorOf(s'.updates), HiddenStep(cfg, hidden, s, MarkResumes))
  {
    var s' := OnMarkResume(cfg, s);
    match s.mark
    case MarkClosing(c) =>
      var t := FeedBreakers(cfg, s, c);
      assert Tracks(t, mirror, hidden) by { Unmoved(s, t, mirror, hidden); }
      if t.daily.tripped {
        Unmoved(s, s', mirror, hidden);
      } else {
        FinishReflects(t, c, mirror, hidden);
      }
    case MarkTripped(c) => FinishReflects(s, c, mirror, hidden);
    case MarkIdle =>
    case MarkCrashed =>
  }

  /** Steps that touch neither positions nor updates nor what is in progress. */
  lemma Unmoved(s: State, s': State, mirror: Mirror, hidden: set<Symbol>)
    requires Tracks(s, mirror, hidden)
    requires s'.acct == s.acct && s'.sig == s.sig
    requires s'.mark == s.mark || (s.mark.MarkClosing? && s'.mark == MarkTripped(s.mark.c))
    ensures Tracks(s', mirror, hidden)
  {
    if Live(s') {
      forall symbol ensures Reflects(s', mirror, hidden, symbol) {
        assert Reflects(s, mirror, hidden, symbol);
      }
    }
  }

  lemma SignalTracks(cfg: Config, s: State, sig: Signal, now: real, hidden: set<Symbol>)
    requires s.sig.SignalIdle? && Tracks(s, MirrorOf(s.updates), hidden)
    ensures var s' := OnSignal(cfg, s, sig, now);
            Tracks(s', MirrorOf(s'.updates), HiddenStep(cfg, hidden, s, SignalArrives(sig, now)))
  {
    if sig.symbol !in s.acct.positions {
      TryOpenTracks(cfg, s, sig, now, MirrorOf(s.updates), hidden);
    } else if Flips(s, sig) {
      assert !Live(OnSignal(cfg, s, sig, now));
    }
  }

  lemma AnnounceTracks(s: State, hidden: set<Symbol>)
    requires WellKeyed(s.acct.positions) && s.sig.SignalExecuted? && Tracks(s, MirrorOf(s.updates), hidden)
    ensures var s' := PublishUpdate(s, s.sig.symbol).(sig := SignalIdle);
            Tracks(s', MirrorOf(s'.updates), hidden - {s.sig.symbol})
  {
    if Live(s) { ExecutedReflects(s, MirrorOf(s.updates), hidden); }
  }

  /** While a handler is on its way down, only the bound on the hidden set is left to keep. */
  lemma NotLive(s: State, s': State, hidden: set<Symbol>)
    requires Tracks(s, MirrorOf(s.updates), hidden) && s'.acct == s.acct && !Live(s')
    ensures Tracks(s', MirrorOf(s'.updates), hidden)
  {
  }

  lemma ResumeTracks(cfg: Config, s: State, now: real, hidden: set<Symbol>)
    requires WellKeyed(s.acct.positions) && OnlyFlips(s.sig) && Tracks(s, MirrorOf(s.updates), hidden)
    ensures var s' := OnSignalResume(cfg, s, now);
            Tracks(s', MirrorOf(s'.updates), HiddenStep(cfg, hidden, s, SignalResumes(now)))
  {
    if s.sig.SignalExecuted? {
      AnnounceTracks(s, hidden);
    } else if s.sig.SignalClosing? || s.sig.SignalTripped? {
      FlipResumes(cfg, s, now);
      NotLive(s, Next(cfg, s, SignalResumes(now)), hidden);
    }
  }

  lemma StepTracks(cfg: Config, s: State, ev: Event, hidden: set<Symbol>)
    requires WellKeyed(s.acct.positions) && OnlyFlips(s.sig) && Tracks(s, MirrorOf(s.updates), hidden)
    ensures var s' := Next(cfg, s, ev);
            Tracks(s', MirrorOf(s'.updates), HiddenStep(cfg, hidden, s, ev))
  {
    match ev
    case SignalArrives(sig, now) =>
      if s.sig.SignalIdle? { SignalTracks(cfg, s, sig, now, hidden); }
    case SignalResumes(now) =>
      ResumeTracks(cfg, s, now, hidden);
    case MarkArrives(k, price, now) =>
      if s.mark.MarkIdle? { MarkReflects(cfg, s, k, price, now, MirrorOf(s.updates), hidden); }
    case MarkResumes =>
      MarkResumeReflects(cfg, s, MirrorOf(s.updates), hidden);
    case BreakersReset =>
      Unmoved(s, OnReset(s), MirrorOf(s.updates), hidden);
  }

  lemma {:induction false} RunTracks(cfg: Config, events: seq<Event>)
    ensures Tracks(Run(cfg, events), MirrorOf(Run(cfg, events).updates), Hidden(cfg, events))
  {
    if events != [] {
      var past := events[..|events| - 1];
      RunTracks(cfg, past);
      RunSound(cfg, past);
      FlipNeverReopens(cfg, past);
      StepTracks(cfg, Run(cfg, past), events[|events| - 1], Hidden(cfg, past));
    }
  }

  // ----- The main results -----

  /** In every quiescent state, reached by any interleaving: the mirror shows exactly the open positions
      that are not hidden, each with the right side, quantity and entry price. */
  lemma {:induction false} MirrorShowsAllButHidden(cfg: Config, events: seq<Event>)
    requires Quiescent(Run(cfg, events))
    ensures var s := Run(cfg, events); var mirror := MirrorOf(s.updates);
            && Hidden(cfg, events) <= s.acct.positions.Keys
            && mirror.Keys == s.acct.positions.Keys - Hidden(cfg, events)
            && (forall symbol :: symbol in mirror ==> SameTrade(mirror[symbol], s.acct.positions[symbol]))
            && |mirror| == |s.acct.positions| - |Hidden(cfg, events)|
  {
    RunTracks(cfg, events);
    var s := Run(cfg, events);
    var mirror := MirrorOf(s.updates);
    forall symbol ensures symbol in mirror <==> symbol in s.acct.positions.Keys - Hidden(cfg, events) {
      assert Reflects(s, mirror, Hidden(cfg, events), symbol);
    }
    assert mirror.Keys == s.acct.positions.Keys - Hidden(cfg, events);
    forall symbol | symbol in mirror ensures SameTrade(mirror[symbol], s.acct.positions[symbol]) {
      assert Reflects(s, mirror, Hidden(cfg, events), symbol);
    }
  }

  /** So the mirror shows the account exactly when no position is hidden, and exactly then the agent's cap
      check counts what the engine counts, whatever the cap. */
  lemma {:induction false} MirrorShowsAccountIff(cfg: Config, events: seq<Event>)
    requires Quiescent(Run(cfg, events))
    ensures var s := Run(cfg, events); var mirror := MirrorOf(s.updates);
            && (Shows(mirror, s.acct.positions) <==> Hidden(cfg, events) == {})
            && ((forall max :: HardRejects(mirror, max) <==> |s.acct.positions| >= max) <==> Hidden(cfg, events) == {})
  {
    MirrorShowsAllButHidden(cfg, events);
    var s := Run(cfg, events);
    var mirror := MirrorOf(s.updates);
    if Hidden(cfg, events) != {} {
      assert !HardRejects(mirror, |s.acct.positions|);
    }
  }

  /** A condition the signal handler could check on arrival: the symbol is not in the middle of a close. */
  ghost predicate NoReopenDuringClose(cfg: Config, events: seq<Event>) {
    events == [] ||
    (var past, ev := events[..|events| - 1], events[|events| - 1];
     && NoReopenDuringClose(cfg, past)
     && (ev.SignalArrives? ==> !MidClose(Run(cfg, past), ev.signal.symbol)))
  }

  ghost predicate ClosedStaysClosed(s: State) {
    forall symbol :: MidClose(s, symbol) ==> symbol !in s.acct.positions
  }

  lemma ClosedKept(s: State, s': State, added: set<Symbol>)
    requires ClosedStaysClosed(s) && s'.acct.positions.Keys <= s.acct.positions.Keys + added
    requires forall symbol :: symbol in added ==> !MidClose(s, symbol)
    requires forall symbol :: MidClose(s', symbol) ==> MidClose(s, symbol)
    ensures ClosedStaysClosed(s')
  {
  }

  lemma ClosedOnMark(cfg: Config, s: State, k: Symbol, price: real, now: real)
    requires s.mark.MarkIdle? && WellKeyed(s.acct.positions)
    ensures ClosedStaysClosed(OnMark(cfg, s, k, price, now))
  {
  }

  lemma SignalFrame(cfg: Config, s: State, sig: Signal, now: real)
    ensures var s' := OnSignal(cfg, s, sig, now);
            s'.mark == s.mark && s'.acct.positions.Keys <= s.acct.positions.Keys + {sig.symbol}
  {
    if sig.symbol !in s.acct.positions {
      var e := TryOpenEffect(cfg, s, sig, now);
      assert TryOpen(cfg, s, sig, now).mark == s.mark;
    }
  }

  lemma ResumeFrame(cfg: Config, s: State, now: real)
    ensures OnMarkResume(cfg, s).acct == s.acct
    ensures forall symbol :: MidClose(OnMarkResume(cfg, s), symbol) ==> MidClose(s, symbol)
    ensures OnlyFlips(s.sig) ==> OnSignalResume(cfg, s, now).mark == s.mark && OnSignalResume(cfg, s, now).acct == s.acct
  {
  }

  lemma ClosedStep(cfg: Config, s: State, ev: Event)
    requires ClosedStaysClosed(s) && WellKeyed(s.acct.positions) && OnlyFlips(s.sig)
    requires ev.SignalArrives? ==> !MidClose(s, ev.signal.symbol)
    ensures ClosedStaysClosed(Next(cfg, s, ev))
  {
    match ev
    case SignalArrives(sig, now) =>
      SignalFrame(cfg, s, sig, now);
      ClosedKept(s, OnSignal(cfg, s, sig, now), {sig.symbol});
    case MarkArrives(k, price, now) =>
      if s.mark.MarkIdle? { ClosedOnMark(cfg, s, k, price, now); }
    case SignalResumes(now) =>
      ResumeFrame(cfg, s, now);
      ClosedKept(s, OnSignalResume(cfg, s, now), {});
    case MarkResumes =>
      ResumeFrame(cfg, s, 0.0);
      ClosedKept(s, OnMarkResume(cfg, s), {});
    case BreakersReset =>
      ClosedKept(s, OnReset(s), {});
  }

  /** Finishing a close whose symbol stays closed hides nothing. */
  lemma NothingHidden(cfg: Config, s: State, ev: Event)
    requires ClosedStaysClosed(s)
    ensures HiddenStep(cfg, {}, s, ev) == {}
  {
    if ev.MarkResumes? && Finishing(cfg, s).Some? {
      assert MidClose(s, Finishing(cfg, s).value.pos.symbol);
    }
  }

  /** Under that condition no run ever hides a position. */
  lemma {:induction false} NoReopenNothingHidden(cfg: Config, events: seq<Event>)
    requires NoReopenDuringClose(cfg, events) && Quiescent(Run(cfg, events))
    ensures Shows(MirrorOf(Run(cfg, events).updates), Run(cfg, events).acct.positions)
  {
    ClosedRun(cfg, events);
    MirrorShowsAccountIff(cfg, events);
  }

  lemma {:induction false} ClosedRun(cfg: Config, events: seq<Event>)
    requires NoReopenDuringClose(cfg, events)
    ensures ClosedStaysClosed(Run(cfg, events)) && Hidden(cfg, events) == {}
  {
    if events != [] {
      var past, ev := events[..|events| - 1], events[|events| - 1];
      ClosedRun(cfg, past);
      RunSound(cfg, past);
      FlipNeverReopens(cfg, past);
      ClosedStep(cfg, Run(cfg, past), ev);
      NothingHidden(cfg, Run(cfg, past), ev);
    }
  }

  // ----- The race happens -----

  /** A mark handler that finishes a close whose symbol has been reopened and announced meanwhile leaves
      the engine quiescent with the symbol open and the mirror without it. */
  lemma ClosingUpdateHides(cfg: Config, s: State)
    requires s.sig.SignalIdle? && Finishing(cfg, s).Some?
    requires Finishing(cfg, s).value.pos.symbol in s.acct.positions
    ensures var s' := Next(cfg, s, MarkResumes); var symbol := Finishing(cfg, s).value.pos.symbol;
            && Quiescent(s') && s'.acct == s.acct
            && symbol !in MirrorOf(s'.updates) && !Shows(MirrorOf(s'.updates), s'.acct.positions)
  {
    FoldOne(s.updates, ClosedUpdate(Finishing(cfg, s).value));
  }

  const SECOND_SIGNAL := Signal("c2", "BTCUSDT", Long, 100.0, 90.0, 130.0, 5, None)

  const RACE_EVENTS: seq<Event> :=
    [SignalArrives(ExampleSignal(Long), 0.0), SignalResumes(0.0), MarkArrives("BTCUSDT", 110.0, 0.0),
     SignalArrives(SECOND_SIGNAL, 0.0), SignalResumes(0.0), MarkResumes]

  lemma RaceClose() returns (c: Closing)
    ensures c.pos.symbol == "BTCUSDT" && c.reason == TakeProfit && c.netPnl == 9.916
    ensures OnMark(EXAMPLE_CONFIG, ExampleOpen(Long), "BTCUSDT", 110.0, 0.0) ==
            ExampleOpen(Long).(acct := AccountState(1009.916, map[]), marks := map["BTCUSDT" := 110.0],
                               trades := ExampleOpen(Long).trades + [ClosedMsg(EXAMPLE_CONFIG, "BTCUSDT", c)],
                               mark := MarkClosing(c))
  {
    var s' := OnMark(EXAMPLE_CONFIG, ExampleOpen(Long), "BTCUSDT", 110.0, 0.0);
    assert ExitFor(ExamplePosition(Long).(markPrice := 110.0), 110.0, 0.0) == Some((110.0, TakeProfit));
    c := s'.mark.c;
    assert s'.acct.positions == map[];
  }

  /** The account after the close, with the mark handler suspended in it. */
  predicate ClosedAt110(s: State, c: Closing) {
    && s.acct == AccountState(1009.916, map[]) && s.marks == map["BTCUSDT" := 110.0]
    && s.daily == FRESH_DAILY && !s.dd.tripped && s.sig == SignalIdle && s.mark == MarkClosing(c)
  }

  /** The old trade is being closed, the new one is open. */
  predicate Reopened(s: State, c: Closing) {
    s.mark == MarkClosing(c) && s.daily == FRESH_DAILY && "BTCUSDT" in s.acct.positions
  }

  lemma RaceReopen(s: State, c: Closing)
    requires ClosedAt110(s, c)
    ensures var t := Next(EXAMPLE_CONFIG, s, SignalArrives(SECOND_SIGNAL, 0.0));
            Reopened(t, c) && t.sig == SignalExecuted("BTCUSDT")
  {
    assert s.acct.Equity() == 1009.916;
    assert Check(EXAMPLE_CONFIG.risk, 0, 1009.916, SECOND_SIGNAL) == Allowed;
    assert FillPrice(s.marks, SECOND_SIGNAL) == 110.0;
  }

  /** After three events the take-profit of the first trade is being closed. */
  lemma RaceThree() returns (c: Closing)
    ensures var s := Run(EXAMPLE_CONFIG, RACE_EVENTS[..3]);
            && c.pos.symbol == "BTCUSDT" && c.reason == TakeProfit && c.netPnl == 9.916
            && ClosedAt110(s, c)
  {
    ExampleRun(Long);
    assert RACE_EVENTS[..2] == OpeningEvents(Long);
    c := RaceClose();
    RunStep(EXAMPLE_CONFIG, RACE_EVENTS, 2);
  }

  lemma RaceFour() returns (c: Closing)
    ensures c.pos.symbol == "BTCUSDT" && c.reason == TakeProfit && c.netPnl == 9.916
    ensures var s := Run(EXAMPLE_CONFIG, RACE_EVENTS[..4]); Reopened(s, c) && s.sig == SignalExecuted("BTCUSDT")
  {
    c := RaceThree();
    RaceReopen(Run(EXAMPLE_CONFIG, RACE_EVENTS[..3]), c);
    RunStep(EXAMPLE_CONFIG, RACE_EVENTS, 3);
  }

  lemma Announces(s: State, c: Closing)
    requires Reopened(s, c) && s.sig == SignalExecuted("BTCUSDT")
    ensures var t := Next(EXAMPLE_CONFIG, s, SignalResumes(0.0)); Reopened(t, c) && t.sig == SignalIdle
  {
  }

  lemma RaceFive() returns (c: Closing)
    ensures c.pos.symbol == "BTCUSDT" && c.reason == TakeProfit && c.netPnl == 9.916
    ensures var s := Run(EXAMPLE_CONFIG, RACE_EVENTS[..5]); Reopened(s, c) && s.sig == SignalIdle
  {
    c := RaceFour();
    Announces(Run(EXAMPLE_CONFIG, RACE_EVENTS[..4]), c);
    RunStep(EXAMPLE_CONFIG, RACE_EVENTS, 4);
  }

  lemma WouldFinish(s: State, c: Closing)
    requires Reopened(s, c) && c.reason == TakeProfit && c.netPnl == 9.916
    ensures Finishing(EXAMPLE_CONFIG, s) == Some(c)
  {
  }

  /** Six events, the last of which leaves a quiescent engine whose open position the portfolio agent
      does not see: the closing update of the old trade is published after the opening of the new one. */
  lemma MirrorCanMissAnOpenPosition()
    ensures var s := Run(EXAMPLE_CONFIG, RACE_EVENTS);
            && Quiescent(s) && "BTCUSDT" in s.acct.positions && "BTCUSDT" !in MirrorOf(s.updates)
  {
    var c := RaceFive();
    WouldFinish(Run(EXAMPLE_CONFIG, RACE_EVENTS[..5]), c);
    ClosingUpdateHides(EXAMPLE_CONFIG, Run(EXAMPLE_CONFIG, RACE_EVENTS[..5]));
    RunStep(EXAMPLE_CONFIG, RACE_EVENTS, 5);
    assert RACE_EVENTS[..6] == RACE_EVENTS;
  }

  // ----- The mutable agent -----

  class PortfolioAgent {
    const maxPositions: int
    var positions: Mirror

    constructor (maxPositions: int)
      ensures this.maxPositions == maxPositions && positions == map[]
    {
      this.maxPositions := maxPositions;
      positions := map[];
    }

    method OnPositionUpdate(u: PositionUpdate)
      modifies this
      ensures positions == OnUpdate(old(positions), u)
    {
      if u.isClosed {
        positions := positions - {u.symbol};
      } else {
        positions := positions[u.symbol := Snapshot(u.side, u.qty, u.entryPrice, u.unrealizedPnl)];
      }
    }

    /** The listening loop over everything the engine has published. */
    method ListenPositions(log: seq<PositionUpdate>)
      requires positions == map[]
      modifies this
      ensures positions == MirrorOf(log)
    {
      var i := 0;
      while i < |log|
        invariant 0 <= i <= |log|
        invariant positions == MirrorOf(log[..i])
      {
        OnPositionUpdate(log[i]);
        assert log[..i + 1][..i] == log[..i];
        i := i + 1;
      }
      assert log[..i] == log;
    }

    /** The agent's cap check after listening to a whole run: it counts the engine's open positions less
        the hidden ones. */
    method HardCap(ghost cfg: Config, ghost events: seq<Event>) returns (rejected: bool)
      requires Quiescent(Run(cfg, events)) && positions == MirrorOf(Run(cfg, events).updates)
      ensures rejected <==> |Run(cfg, events).acct.positions| - |Hidden(cfg, events)| >= maxPositions
    {
      MirrorShowsAllButHidden(cfg, events);
      rejected := |positions| >= maxPositions;
    }
  }
}
