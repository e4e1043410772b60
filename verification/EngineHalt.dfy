/** When a handler of the engine stops for good, and what no longer happens from then on. A handler that has
    crashed never runs again; the other one may go on for any number of steps, none included. */
module EngineHalt {
  import opened Messages
  import opened Guards
  import opened EngineSpec
  import opened EngineSafety
  import opened EngineLoss
  import opened EngineExamples

  /** The log holds a close with this reason. */
  predicate ClosedFor(trades: seq<TradeMsg>, reason: CloseReason) {
    exists i :: 0 <= i < |trades| && trades[i].Closed? && trades[i].reason == reason
  }

  lemma ClosedForAppend(trades: seq<TradeMsg>, m: TradeMsg, reason: CloseReason)
    ensures ClosedFor(trades + [m], reason) <==> ClosedFor(trades, reason) || (m.Closed? && m.reason == reason)
  {
    if ClosedFor(trades, reason) {
      var i :| 0 <= i < |trades| && trades[i].Closed? && trades[i].reason == reason;
      assert (trades + [m])[i] == trades[i];
    }
    assert (trades + [m])[|trades|] == m;
  }

  // ----- The mark handler -----

  predicate InRest(t: MarkTask, reason: CloseReason) {
    (t.MarkClosing? || t.MarkTripped?) && t.c.reason == reason
  }

  /** Crashed, or bound to crash in the rest of a close by age. */
  predicate MarksHalted(t: MarkTask) {
    t.MarkCrashed? || InRest(t, MaxHold)
  }

  /** The handler is halted if and only if the log holds a close by age; its other closes can be announced. */
  ghost predicate HaltRecorded(s: State) {
    && (MarksHalted(s.mark) <==> ClosedFor(s.trades, MaxHold))
    && ((s.mark.MarkClosing? || s.mark.MarkTripped?) && s.mark.c.reason != MaxHold ==> Admissible(s.mark.c.reason))
  }

  lemma MarkHalts(cfg: Config, s: State, symbol: Symbol, price: real, now: real)
    requires HaltRecorded(s) && s.mark.MarkIdle?
    ensures HaltRecorded(OnMark(cfg, s, symbol, price, now))
  {
    var s' := OnMark(cfg, s, symbol, price, now);
    if s'.trades != s.trades {
      ClosedForAppend(s.trades, s'.trades[|s.trades|], MaxHold);
    }
  }

  lemma MarkResumeHalts(cfg: Config, s: State)
    requires HaltRecorded(s)
    ensures HaltRecorded(OnMarkResume(cfg, s))
  {
  }

  lemma SignalKeepsMark(cfg: Config, s: State, ev: Event)
    requires OnlyFlips(s.sig) && (ev.SignalArrives? || ev.SignalResumes?)
    ensures var s' := Next(cfg, s, ev);
            && s'.mark == s.mark
            && (s'.trades == s.trades ||
                (s'.trades == s.trades + [s'.trades[|s.trades|]] &&
                 (s'.trades[|s.trades|].Closed? ==> s'.trades[|s.trades|].reason == DirectionFlip)))
  {
    var e := StepEffect(cfg, s, ev);
  }

  lemma SignalHalts(cfg: Config, s: State, ev: Event)
    requires HaltRecorded(s) && OnlyFlips(s.sig) && (ev.SignalArrives? || ev.SignalResumes?)
    ensures HaltRecorded(Next(cfg, s, ev))
  {
    var s' := Next(cfg, s, ev);
    SignalKeepsMark(cfg, s, ev);
    if s'.trades != s.trades {
      ClosedForAppend(s.trades, s'.trades[|s.trades|], MaxHold);
    }
  }

  lemma {:induction false} RunHalts(cfg: Config, events: seq<Event>)
    ensures HaltRecorded(Run(cfg, events))
  {
    if events != [] {
      var past, ev := events[..|events| - 1], events[|events| - 1];
      RunHalts(cfg, past);
      FlipNeverReopens(cfg, past);
      var s := Run(cfg, past);
      match ev
      case SignalArrives(_, _) => SignalHalts(cfg, s, ev);
      case SignalResumes(_) => SignalHalts(cfg, s, ev);
      case MarkArrives(symbol, price, now) => if s.mark.MarkIdle? { MarkHalts(cfg, s, symbol, price, now); }
      case MarkResumes => MarkResumeHalts(cfg, s);
      case BreakersReset =>
    }
  }

  /** In every run: the mark handler is crashed, or on its way to it in the rest of a close by age, if and only
      if a position has been closed by age. Closes at a level never stop it. */
  lemma {:induction false} AgeCloseHaltsMarksIff(cfg: Config, events: seq<Event>)
    ensures MarksHalted(Run(cfg, events).mark) <==> ClosedFor(Run(cfg, events).trades, MaxHold)
  {
    RunHalts(cfg, events);
  }

  lemma {:induction false} LogGrows(cfg: Config, events: seq<Event>, more: seq<Event>)
    ensures Run(cfg, events).trades <= Run(cfg, events + more).trades
  {
    if more == [] {
      assert events + more == events;
    } else {
      var front, ev := more[..|more| - 1], more[|more| - 1];
      LogGrows(cfg, events, front);
      RunAppend(cfg, events, more);
      var e := StepEffect(cfg, Run(cfg, events + front), ev);
    }
  }

  lemma ClosedForGrows(trades: seq<TradeMsg>, longer: seq<TradeMsg>, reason: CloseReason)
    requires trades <= longer && ClosedFor(trades, reason)
    ensures ClosedFor(longer, reason)
  {
    var i :| 0 <= i < |trades| && trades[i].Closed? && trades[i].reason == reason;
    assert longer[i] == trades[i];
  }

  lemma HaltedStep(cfg: Config, s: State, ev: Event)
    requires MarksHalted(s.mark) && (ev.MarkArrives? || ev.MarkResumes?)
    ensures var s' := Next(cfg, s, ev);
            && s'.acct == s.acct && s'.trades == s.trades && s'.updates == s.updates && s'.marks == s.marks
            && (ev.MarkArrives? ==> s' == s)
  {
  }

  /** Once a position has been closed by age, however the run goes on, no mark changes anything, and what is
      left of the handler changes neither account nor log nor what the agents are told. */
  lemma {:induction false} HaltedMarksDoNothing(cfg: Config, events: seq<Event>, more: seq<Event>, ev: Event)
    requires ClosedFor(Run(cfg, events).trades, MaxHold) && (ev.MarkArrives? || ev.MarkResumes?)
    ensures var s := Run(cfg, events + more); var s' := Next(cfg, s, ev);
            && s'.acct == s.acct && s'.trades == s.trades && s'.updates == s.updates && s'.marks == s.marks
            && (ev.MarkArrives? ==> s' == s)
  {
    LogGrows(cfg, events, more);
    ClosedForGrows(Run(cfg, events).trades, Run(cfg, events + more).trades, MaxHold);
    AgeCloseHaltsMarksIff(cfg, events + more);
    HaltedStep(cfg, Run(cfg, events + more), ev);
  }

  /** So from then on no stop-loss, take-profit or liquidation closes anything: only a direction flip can. */
  lemma {:induction false} NoLevelIsEnforcedAgain(cfg: Config, events: seq<Event>, more: seq<Event>, ev: Event)
    requires ClosedFor(Run(cfg, events).trades, MaxHold) && Closes(cfg, Run(cfg, events + more), ev)
    ensures var s := Run(cfg, events + more); Next(cfg, s, ev).trades[|s.trades|].reason == DirectionFlip
  {
    ClosesAreTriggered(cfg, events + more, ev);
    if ev.MarkArrives? {
      HaltedMarksDoNothing(cfg, events, more, ev);
    }
  }

  lemma HaltedResumes(cfg: Config, s: State)
    requires MarksHalted(s.mark)
    ensures MarksHalted(Next(cfg, s, MarkResumes).mark)
    ensures s.mark.MarkCrashed? || s.mark.MarkTripped? ==> Next(cfg, s, MarkResumes).mark.MarkCrashed?
    ensures s.mark.MarkClosing? ==> !Next(cfg, s, MarkResumes).mark.MarkClosing?
  {
  }

  /** After a close by age the handler is down within two resumptions. */
  lemma {:induction false} AgeCloseCrashes(cfg: Config, events: seq<Event>)
    requires ClosedFor(Run(cfg, events).trades, MaxHold)
    ensures var t := Next(cfg, Run(cfg, events), MarkResumes);
            t.mark.MarkCrashed? || Next(cfg, t, MarkResumes).mark.MarkCrashed?
  {
    AgeCloseHaltsMarksIff(cfg, events);
    HaltedResumes(cfg, Run(cfg, events));
    HaltedResumes(cfg, Next(cfg, Run(cfg, events), MarkResumes));
  }

  /** A safe run of three events closes by age; two resumptions later the handler is down. */
  lemma {:induction false} AgeCloseHappens()
    ensures var events := OpeningEvents(Short) + [MarkArrives("BTCUSDT", 100.0, 25200.0)];
            && SafeRun(EXAMPLE_CONFIG, events) && ClosedFor(Run(EXAMPLE_CONFIG, events).trades, MaxHold)
            && Run(EXAMPLE_CONFIG, events + [MarkResumes] + [MarkResumes]).mark.MarkCrashed?
  {
    var ev := MarkArrives("BTCUSDT", 100.0, 25200.0);
    var events := OpeningEvents(Short) + [ev];
    AgeLimitIsUnbounded(0.0);
    ExampleRun(Short);
    SafeStep(EXAMPLE_CONFIG, OpeningEvents(Short), ev);
    var s := Run(EXAMPLE_CONFIG, events);
    assert s.trades[|ExampleOpen(Short).trades|].reason == MaxHold;
    AgeCloseHaltsMarksIff(EXAMPLE_CONFIG, events);
    SafeStep(EXAMPLE_CONFIG, events, MarkResumes);
    SafeStep(EXAMPLE_CONFIG, events + [MarkResumes], MarkResumes);
    HaltedResumes(EXAMPLE_CONFIG, s);
    HaltedResumes(EXAMPLE_CONFIG, Next(EXAMPLE_CONFIG, s, MarkResumes));
  }

  // ----- The signal handler -----

  predicate SignalsHalted(t: SignalTask) {
    t.SignalCrashed? || t.SignalClosing? || t.SignalTripped?
  }

  /** A signal that passes every check but cannot be filled: no positive price, or a leverage of zero. */
  ghost predicate Unfillable(cfg: Config, s: State, ev: Event) {
    && ev.SignalArrives? && s.sig.SignalIdle? && ev.signal.symbol !in s.acct.positions
    && !s.daily.tripped && !s.dd.tripped
    && Check(cfg.risk, |s.acct.positions|, s.acct.Equity(), ev.signal).Allowed?
    && (FillPrice(s.marks, ev.signal) <= 0.0 || ev.signal.leverage == 0)
  }

  ghost predicate SomeUnfillable(cfg: Config, events: seq<Event>) {
    events != [] &&
    (var past := events[..|events| - 1];
     SomeUnfillable(cfg, past) || Unfillable(cfg, Run(cfg, past), events[|events| - 1]))
  }

  lemma SignalHaltStep(cfg: Config, s: State, ev: Event)
    requires OnlyFlips(s.sig)
    ensures var s' := Next(cfg, s, ev); var e := |s.trades|;
            SignalsHalted(s'.sig) <==>
            SignalsHalted(s.sig) || Unfillable(cfg, s, ev) ||
            (|s'.trades| > e && s'.trades[e].Closed? && s'.trades[e].reason == DirectionFlip)
  {
    match ev
    case SignalArrives(_, _) =>
    case SignalResumes(_) =>
    case MarkArrives(symbol, price, now) =>
      var e := OnMarkEffect(cfg, s, symbol, price, now);
    case MarkResumes =>
    case BreakersReset =>
  }

  lemma FlipAppend(cfg: Config, s: State, ev: Event)
    ensures var s' := Next(cfg, s, ev); var e := |s.trades|;
            ClosedFor(s'.trades, DirectionFlip) <==>
            ClosedFor(s.trades, DirectionFlip) ||
            (|s'.trades| > e && s'.trades[e].Closed? && s'.trades[e].reason == DirectionFlip)
  {
    var s' := Next(cfg, s, ev);
    var e := StepEffect(cfg, s, ev);
    if s'.trades != s.trades {
      ClosedForAppend(s.trades, s'.trades[|s.trades|], DirectionFlip);
    }
  }

  /** In every run: the signal handler is down, or in the rest of a direction flip that takes it down, if and
      only if a position has been closed by a flip or a signal that passed every check could not be filled. */
  lemma {:induction false} SignalsHaltedIff(cfg: Config, events: seq<Event>)
    ensures SignalsHalted(Run(cfg, events).sig) <==>
            ClosedFor(Run(cfg, events).trades, DirectionFlip) || SomeUnfillable(cfg, events)
  {
    if events != [] {
      var past, ev := events[..|events| - 1], events[|events| - 1];
      SignalsHaltedIff(cfg, past);
      FlipNeverReopens(cfg, past);
      SignalHaltStep(cfg, Run(cfg, past), ev);
      FlipAppend(cfg, Run(cfg, past), ev);
    }
  }

  lemma HaltKept(cfg: Config, s: State, ev: Event)
    requires OnlyFlips(s.sig) && SignalsHalted(s.sig)
    ensures SignalsHalted(Next(cfg, s, ev).sig)
  {
    SignalHaltStep(cfg, s, ev);
  }

  lemma {:induction false} HaltedStays(cfg: Config, events: seq<Event>, more: seq<Event>)
    requires SignalsHalted(Run(cfg, events).sig)
    ensures SignalsHalted(Run(cfg, events + more).sig)
  {
    if more == [] {
      assert events + more == events;
    } else {
      var front := more[..|more| - 1];
      HaltedStays(cfg, events, front);
      RunAppend(cfg, events, more);
      FlipNeverReopens(cfg, events + front);
      HaltKept(cfg, Run(cfg, events + front), more[|more| - 1]);
    }
  }

  /** Once the signal handler is halted, by a flip or by a signal it could not fill, no continuation of the run ever
      opens a position or flips one. */
  lemma {:induction false} HaltEndsTrading(cfg: Config, events: seq<Event>, more: seq<Event>, ev: Event)
    requires SignalsHalted(Run(cfg, events).sig)
    ensures var s := Run(cfg, events + more);
            !Opens(cfg, s, ev) && (Closes(cfg, s, ev) ==> Next(cfg, s, ev).trades[|s.trades|].reason != DirectionFlip)
  {
    HaltedStays(cfg, events, more);
    var s := Run(cfg, events + more);
    if Opens(cfg, s, ev) {
      OpensAreGuarded(cfg, events + more, ev);
    }
    if Closes(cfg, s, ev) {
      ClosesAreTriggered(cfg, events + more, ev);
    }
  }

  /** After a direction flip no run ever opens a position again. */
  lemma {:induction false} FlipEndsTrading(cfg: Config, events: seq<Event>, more: seq<Event>, ev: Event)
    requires ClosedFor(Run(cfg, events).trades, DirectionFlip)
    ensures var s := Run(cfg, events + more); var s' := Next(cfg, s, ev);
            |s'.trades| > |s.trades| ==> s'.trades[|s.trades|].Closed?
  {
    SignalsHaltedIff(cfg, events);
    HaltEndsTrading(cfg, events, more, ev);
  }

  /** Five events of a safe run: a long is opened and announced, a short signal closes it, and the handler goes down
      with nothing open. */
  lemma {:induction false} FlipHappens()
    ensures var events := OpeningEvents(Long) + [SignalArrives(FLIPPED, 0.0)];
            var end := events + [SignalResumes(0.0)] + [SignalResumes(0.0)];
            && SafeRun(EXAMPLE_CONFIG, end) && ClosedFor(Run(EXAMPLE_CONFIG, events).trades, DirectionFlip)
            && Run(EXAMPLE_CONFIG, end).sig.SignalCrashed? && Run(EXAMPLE_CONFIG, end).acct.positions == map[]
  {
    var ev := SignalArrives(FLIPPED, 0.0);
    var events := OpeningEvents(Long) + [ev];
    ExampleRun(Long);
    FlipBegins();
    SafeStep(EXAMPLE_CONFIG, OpeningEvents(Long), ev);
    var s := Run(EXAMPLE_CONFIG, events);
    assert s.trades[1].Closed?;
    FlipNeverReopens(EXAMPLE_CONFIG, events);
    FlipCrashes(EXAMPLE_CONFIG, s, 0.0, 0.0);
    var one := events + [SignalResumes(0.0)];
    SafeStep(EXAMPLE_CONFIG, events, SignalResumes(0.0));
    SafeStep(EXAMPLE_CONFIG, one, SignalResumes(0.0));
    if Run(EXAMPLE_CONFIG, one).sig.SignalCrashed? {
      assert Next(EXAMPLE_CONFIG, Run(EXAMPLE_CONFIG, one), SignalResumes(0.0)) == Run(EXAMPLE_CONFIG, one);
    }
  }
}
