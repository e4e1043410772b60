/** One small engine and concrete runs of it, for the properties that the code does not meet. */
module EngineExamples {
  import opened Options
  import opened Messages
  import opened TradeMath
  import opened PaperAccount
  import opened Guards
  import opened EngineSpec
  import opened EngineLoss

  const EXAMPLE_CONFIG := Config(RiskConfig(["BTCUSDT"], 1000.0, 0.1, 5, 5, 0.03, 0.15), 0.0004, 0.004)

  /** Size 100 at leverage 5, with levels ten above and below. */
  function ExampleSignal(side: Side): Signal {
    if side.Long? then Signal("c1", "BTCUSDT", Long, 100.0, 90.0, 110.0, 5, None)
    else Signal("c1", "BTCUSDT", Short, 100.0, 110.0, 90.0, 5, None)
  }

  function ExamplePosition(side: Side): Position {
    if side.Long? then Position("BTCUSDT", Long, 1.0, 100.0, 5, 90.0, 110.0, 20.0, 80.4, 0.04, "c1", 0.0, 0.0, 0.0)
    else Position("BTCUSDT", Short, 1.0, 100.0, 5, 110.0, 90.0, 20.0, 119.6, 0.04, "c1", 0.0, 0.0, 0.0)
  }

  /** The engine with its one position open and announced. */
  function ExampleOpen(side: Side): State {
    Initial(EXAMPLE_CONFIG).(
      acct := AccountState(979.96, map["BTCUSDT" := ExamplePosition(side)]),
      trades := [ExecutedMsg(ExamplePosition(side))], updates := [OpenUpdate(ExamplePosition(side))])
  }

  function OpeningEvents(side: Side): seq<Event> {
    [SignalArrives(ExampleSignal(side), 0.0), SignalResumes(0.0)]
  }

  lemma ExampleOpens(side: Side)
    ensures SafeFill(EXAMPLE_CONFIG, map[], ExampleSignal(side))
    ensures NewPosition(EXAMPLE_CONFIG, ExampleSignal(side), 100.0, 0.0) == ExamplePosition(side)
    ensures var s0 := Initial(EXAMPLE_CONFIG);
            TryOpen(EXAMPLE_CONFIG, s0, ExampleSignal(side), 0.0) ==
            s0.(acct := s0.acct.Open(ExamplePosition(side)), trades := [ExecutedMsg(ExamplePosition(side))],
                sig := SignalExecuted("BTCUSDT"))
  {
    var s0 := Initial(EXAMPLE_CONFIG);
    DefaultFeesOk(5);
    NoHintIsSafe(EXAMPLE_CONFIG, map[], ExampleSignal(side));
    assert s0.acct.Equity() == 1000.0;
    assert FillPrice(map[], ExampleSignal(side)) == 100.0;
    assert Check(EXAMPLE_CONFIG.risk, 0, 1000.0, ExampleSignal(side)) == Allowed;
  }

  lemma ExampleRun(side: Side)
    ensures Run(EXAMPLE_CONFIG, OpeningEvents(side)) == ExampleOpen(side)
    ensures SafeRun(EXAMPLE_CONFIG, OpeningEvents(side))
  {
    var events := OpeningEvents(side);
    ExampleOpens(side);
    RunStep(EXAMPLE_CONFIG, events, 0);
    RunStep(EXAMPLE_CONFIG, events, 1);
    assert events[..0] == [] && events[..2] == events;
    assert SafeRun(EXAMPLE_CONFIG, events[..1]) by { assert events[..1][..0] == []; }
  }

  /** Safety of a run, one event further. */
  lemma SafeStep(cfg: Config, events: seq<Event>, ev: Event)
    requires SafeRun(cfg, events) && SafeEvent(cfg, Run(cfg, events), ev)
    ensures SafeRun(cfg, events + [ev]) && Run(cfg, events + [ev]) == Next(cfg, Run(cfg, events), ev)
  {
    assert (events + [ev])[..|events + [ev]| - 1] == events;
  }

  // ----- The age limit is not bounded -----

  /** The age check comes before the liquidation check, so the close happens at the mark itself: for every
      multiple, a short that a mark finds seven hours later loses more than that many margins, in a run that is
      safe. */
  lemma AgeLimitIsUnbounded(multiple: real)
    requires multiple >= 0.0
    ensures var ev := MarkArrives("BTCUSDT", 100.0 + 20.0 * multiple, 25200.0);
            var s := Run(EXAMPLE_CONFIG, OpeningEvents(Short)); var s' := Next(EXAMPLE_CONFIG, s, ev);
            && SafeRun(EXAMPLE_CONFIG, OpeningEvents(Short) + [ev])
            && Closes(EXAMPLE_CONFIG, s, ev) && s'.trades[|s.trades|].reason == MaxHold
            && "BTCUSDT" in s.acct.positions
            && s'.acct.balance < s.acct.balance - (multiple - 1.0) * s.acct.positions["BTCUSDT"].margin
            && s'.trades[|s.trades|].realizedPnl < -(multiple * s.acct.positions["BTCUSDT"].margin)
  {
    var price := 100.0 + 20.0 * multiple;
    var ev := MarkArrives("BTCUSDT", price, 25200.0);
    ExampleRun(Short);
    SafeStep(EXAMPLE_CONFIG, OpeningEvents(Short), ev);
    var s := ExampleOpen(Short);
    assert ExitFor(ExamplePosition(Short).(markPrice := price), price, 25200.0) == Some((price, MaxHold));
    assert Next(EXAMPLE_CONFIG, s, ev) == OnMark(EXAMPLE_CONFIG, s, "BTCUSDT", price, 25200.0);
  }

  // ----- A direction flip -----

  const FLIPPED := ExampleSignal(Short).(cid := "c2")

  /** A short signal for the open long: the long is closed at its entry, and the handler is suspended there. */
  lemma FlipBegins()
    ensures var s := Next(EXAMPLE_CONFIG, ExampleOpen(Long), SignalArrives(FLIPPED, 0.0));
            && s.sig.SignalClosing? && s.sig.c.reason == DirectionFlip && s.acct.positions == map[]
            && Closes(EXAMPLE_CONFIG, ExampleOpen(Long), SignalArrives(FLIPPED, 0.0))
            && s.trades[1].reason == DirectionFlip && |s.trades| == 2
  {
  }
}
