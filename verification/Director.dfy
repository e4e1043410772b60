/** agents/director.py: concurrent analyses that share the maps of pending results, of completion events
    and of last signal times. As for the engine, one step is the code between two awaits, and a run is
    any sequence of events. */
module Director {
  import opened Options
  import opened Messages
  import opened TradeMath

  datatype Kind = QuantKind | RiskKind | SentimentKind | PortfolioKind | MlKind

  datatype Adjustment = HoldSize | ScaleUp | ScaleDown

  datatype Result =
    | QuantResult(cid: Cid, close: real)
    | RiskResult(cid: Cid)
    | SentimentResult(cid: Cid)
    | PortfolioResult(cid: Cid, approved: bool)
    | MlResult(cid: Cid, adjustment: Adjustment, confidence: real)

  function KindOf(r: Result): Kind {
    match r
    case QuantResult(_, _) => QuantKind
    case RiskResult(_) => RiskKind
    case SentimentResult(_) => SentimentKind
    case PortfolioResult(_, _) => PortfolioKind
    case MlResult(_, _, _) => MlKind
  }

  const REQUIRED: set<Kind> := {QuantKind, RiskKind, SentimentKind, PortfolioKind, MlKind}

  type Results = map<Kind, Result>

  datatype Action = Hold | Buy | Sell

  /** The language model's answer. `entryHint` is an entry price its reasoning text may happen to embed. */
  datatype Raw = Raw(action: Action, side: Side, sizePct: real, slPct: real, tpPct: real, entryHint: Option<real>)

  datatype Decision = Decision(raw: Raw, sizePct: real, entryPrice: real)

  /** Where one analysis is suspended. */
  datatype Task =
    | Publishing
    | Waiting
    | Analysing(results: Results)
    | Asking(results: Results)
    | Inserting(results: Results, raw: Raw)
    | Done

  datatype Config = Config(balance: real, maxPositionPct: real, maxLeverage: int)

  const COOLDOWN := 300.0

  /** A published signal with the time recorded for its symbol. The message itself is a function of the
      results and the raw decision, computed by `SignalOf`. */
  datatype Published = Published(time: real, cid: Cid, symbol: Symbol, results: Results, raw: Raw)

  datatype State = State(pending: map<Cid, Results>, ready: map<Cid, bool>, lastSignal: map<Symbol, real>,
                         tasks: map<Cid, (Symbol, Task)>, signals: seq<Published>)

  const INITIAL := State(map[], map[], map[], map[], [])

  datatype Event =
    | Begins(cid: Cid, symbol: Symbol)
    | RequestSent(cid: Cid)
    | Arrives(r: Result)
    | Wakes(cid: Cid)
    | TimesOut(cid: Cid)
    | Analyses(cid: Cid)
    | Answers(cid: Cid, raw: Raw)
    | Emits(cid: Cid, now: real, later: real)  // the two readings of the clock
    | Fails(cid: Cid)

  predicate IsDone(s: State, cid: Cid) {
    cid in s.tasks && s.tasks[cid].1.Done?
  }

  function SetTask(s: State, cid: Cid, t: Task): State
    requires cid in s.tasks
  {
    s.(tasks := s.tasks[cid := (s.tasks[cid].0, t)])
  }

  /** Request ids are fresh: an id that is in use begins nothing. */
  function Begin(s: State, cid: Cid, symbol: Symbol): State {
    if cid in s.tasks then s
    else s.(pending := s.pending[cid := map[]], ready := s.ready[cid := false],
            tasks := s.tasks[cid := (symbol, Publishing)])
  }

  /** A result for a request nobody waits for is dropped. */
  function Collect(s: State, r: Result): State {
    if r.cid !in s.pending || r.cid !in s.ready then s
    else
      var got := s.pending[r.cid][KindOf(r) := r];
      s.(pending := s.pending[r.cid := got],
         ready := if REQUIRED <= got.Keys then s.ready[r.cid := true] else s.ready)
  }

  /** The end of the wait, by completion or timeout: both map entries go, and only five results go on. */
  function EndWait(s: State, cid: Cid): State
    requires cid in s.tasks
  {
    var results := if cid in s.pending then s.pending[cid] else map[];
    SetTask(s, cid, if |results| < |REQUIRED| then Done else Analysing(results))
      .(pending := s.pending - {cid}, ready := s.ready - {cid})
  }

  const BLOCKED_RAW := Raw(Hold, Long, 0.0, 0.02, 0.04, None)

  function Min(a: real, b: real): real {
    if a <= b then a else b
  }

  function Decide(cfg: Config, results: Results, raw: Raw): Decision
    requires REQUIRED <= results.Keys
  {
    var sizePct :=
      match results[MlKind]
      case MlResult(_, ScaleUp, confidence) =>
        if confidence > 0.6 then Min(raw.sizePct * 1.2, cfg.maxPositionPct) else raw.sizePct
      case MlResult(_, ScaleDown, _) => raw.sizePct * 0.8
      case _ => raw.sizePct;
    var close := match results[QuantKind] case QuantResult(_, c) => c case _ => 0.0;
    Decision(raw, sizePct, close)
  }

  predicate Approved(results: Results) {
    PortfolioKind in results && results[PortfolioKind].PortfolioResult? && results[PortfolioKind].approved
  }

  /** Prices and sizes before rounding to cents. */
  function BuildSignal(cfg: Config, cid: Cid, symbol: Symbol, d: Decision): Signal {
    var size := cfg.balance * Min(d.sizePct, cfg.maxPositionPct);
    var up, down := d.entryPrice * (1.0 + (if d.raw.side.Long? then d.raw.tpPct else d.raw.slPct)),
                    d.entryPrice * (1.0 - (if d.raw.side.Long? then d.raw.slPct else d.raw.tpPct));
    if d.raw.side.Long?
    then Signal(cid, symbol, Long, size, down, up, cfg.maxLeverage, d.raw.entryHint)
    else Signal(cid, symbol, Short, size, up, down, cfg.maxLeverage, d.raw.entryHint)
  }

  function SignalOf(cfg: Config, p: Published): Signal
    requires REQUIRED <= p.results.Keys
  {
    BuildSignal(cfg, p.cid, p.symbol, Decide(cfg, p.results, p.raw))
  }

  function LastSignal(s: State, symbol: Symbol): real {
    if symbol in s.lastSignal then s.lastSignal[symbol] else 0.0
  }

  /** Hold, cooldown check, recording of the time, publication: no await in between. */
  function Emit(s: State, cid: Cid, results: Results, raw: Raw, now: real, later: real): State
    requires cid in s.tasks
  {
    var symbol := s.tasks[cid].0;
    var done := SetTask(s, cid, Done);
    if raw.action.Hold? || now - LastSignal(s, symbol) < COOLDOWN then done
    else done.(lastSignal := s.lastSignal[symbol := later],
               signals := s.signals + [Published(later, cid, symbol, results, raw)])
  }

  /** An exception while the request is being published leaves both map entries behind; a cancelled wait
      removes them. */
  function Fail(s: State, cid: Cid): State
    requires cid in s.tasks
  {
    if s.tasks[cid].1.Waiting?
    then SetTask(s, cid, Done).(pending := s.pending - {cid}, ready := s.ready - {cid})
    else SetTask(s, cid, Done)
  }

  function Next(s: State, ev: Event): State {
    match ev
    case Begins(cid, symbol) => Begin(s, cid, symbol)
    case RequestSent(cid) => if cid in s.tasks && s.tasks[cid].1.Publishing? then SetTask(s, cid, Waiting) else s
    case Arrives(r) => Collect(s, r)
    case Wakes(cid) => if cid in s.tasks && s.tasks[cid].1.Waiting? && cid in s.ready && s.ready[cid] then EndWait(s, cid) else s
    case TimesOut(cid) => if cid in s.tasks && s.tasks[cid].1.Waiting? then EndWait(s, cid) else s
    case Analyses(cid) =>
      if cid in s.tasks && s.tasks[cid].1.Analysing? && REQUIRED <= s.tasks[cid].1.results.Keys then
        var results := s.tasks[cid].1.results;
        if Approved(results) then SetTask(s, cid, Asking(results))
        else SetTask(s, cid, Inserting(results, BLOCKED_RAW))
      else s
    case Answers(cid, raw) =>
      if cid in s.tasks && s.tasks[cid].1.Asking? && REQUIRED <= s.tasks[cid].1.results.Keys
      then SetTask(s, cid, Inserting(s.tasks[cid].1.results, raw))
      else s
    case Emits(cid, now, later) =>
      if cid in s.tasks && s.tasks[cid].1.Inserting? && now <= later
      then Emit(s, cid, s.tasks[cid].1.results, s.tasks[cid].1.raw, now, later) else s
    case Fails(cid) => if cid in s.tasks && !s.tasks[cid].1.Done? then Fail(s, cid) else s
  }

  function Run(events: seq<Event>): State {
    if events == [] then INITIAL
    else Next(Run(events[..|events| - 1]), events[|events| - 1])
  }

  // ----- The two maps -----

  /** Both maps hold the same requests, and an event is set exactly when all five results are in. */
  ghost predicate MapsAgree(s: State) {
    && s.pending.Keys == s.ready.Keys
    && s.pending.Keys <= s.tasks.Keys
    && (forall cid :: cid in s.pending ==> (s.ready[cid] <==> REQUIRED <= s.pending[cid].Keys))
  }

  /** A change of the maps confined to one request. */
  lemma MapsAgreeAt(s: State, s': State, cid: Cid)
    requires MapsAgree(s) && s'.pending.Keys == s'.ready.Keys && s'.pending.Keys <= s'.tasks.Keys
    requires forall c :: c in s'.pending && c != cid ==>
      c in s.pending && s'.pending[c] == s.pending[c] && s'.ready[c] == s.ready[c]
    requires cid in s'.pending ==> (s'.ready[cid] <==> REQUIRED <= s'.pending[cid].Keys)
    ensures MapsAgree(s')
  {
  }

  lemma CollectMaps(s: State, r: Result)
    requires MapsAgree(s)
    ensures MapsAgree(Collect(s, r))
  {
    MapsAgreeAt(s, Collect(s, r), r.cid);
  }

  lemma EndWaitMaps(s: State, cid: Cid)
    requires MapsAgree(s) && cid in s.tasks
    ensures MapsAgree(EndWait(s, cid))
  {
    MapsAgreeAt(s, EndWait(s, cid), cid);
  }

  lemma BeginMaps(s: State, cid: Cid, symbol: Symbol)
    requires MapsAgree(s)
    ensures MapsAgree(Begin(s, cid, symbol))
  {
    MapsAgreeAt(s, Begin(s, cid, symbol), cid);
  }

  lemma FailMaps(s: State, cid: Cid)
    requires MapsAgree(s) && cid in s.tasks
    ensures MapsAgree(Fail(s, cid))
  {
    MapsAgreeAt(s, Fail(s, cid), cid);
  }

  lemma TaskMaps(s: State, s': State)
    requires MapsAgree(s) && s'.pending == s.pending && s'.ready == s.ready && s.tasks.Keys <= s'.tasks.Keys
    ensures MapsAgree(s')
  {
  }

  /** The events that only move one task on, and perhaps publish. */
  predicate TaskEvent(ev: Event) {
    ev.RequestSent? || ev.Analyses? || ev.Answers? || ev.Emits?
  }

  predicate OthersKept(s: State, s': State, cid: Cid) {
    && s'.pending == s.pending && s'.ready == s.ready && s'.tasks.Keys == s.tasks.Keys
    && forall c :: c in s.tasks && c != cid ==> s'.tasks[c] == s.tasks[c]
  }

  lemma SetTaskFrame(s: State, cid: Cid, t: Task)
    requires cid in s.tasks
    ensures OthersKept(s, SetTask(s, cid, t), cid)
  {
    assert SetTask(s, cid, t).tasks.Keys == s.tasks.Keys;
  }

  lemma TaskEventFrame(s: State, ev: Event)
    requires TaskEvent(ev)
    ensures OthersKept(s, Next(s, ev), ev.cid)
  {
    if ev.cid in s.tasks {
      match ev
      case RequestSent(cid) => SetTaskFrame(s, cid, Waiting);
      case Analyses(cid) =>
        if s.tasks[cid].1.Analysing? {
          SetTaskFrame(s, cid, Asking(s.tasks[cid].1.results));
          SetTaskFrame(s, cid, Inserting(s.tasks[cid].1.results, BLOCKED_RAW));
        }
      case Answers(cid, raw) =>
        if s.tasks[cid].1.Asking? { SetTaskFrame(s, cid, Inserting(s.tasks[cid].1.results, raw)); }
      case Emits(cid, _, _) => SetTaskFrame(s, cid, Done);
    }
  }

  lemma DoneTakesNoEvent(s: State, ev: Event)
    requires TaskEvent(ev) && IsDone(s, ev.cid)
    ensures Next(s, ev) == s
  {
  }

  lemma StepMapsAgree(s: State, ev: Event)
    requires MapsAgree(s)
    ensures MapsAgree(Next(s, ev))
  {
    if TaskEvent(ev) {
      TaskEventFrame(s, ev);
      TaskMaps(s, Next(s, ev));
    } else {
      match ev
      case Begins(cid, symbol) => BeginMaps(s, cid, symbol);
      case Arrives(r) => CollectMaps(s, r);
      case Wakes(cid) => if cid in s.tasks { EndWaitMaps(s, cid); }
      case TimesOut(cid) => if cid in s.tasks { EndWaitMaps(s, cid); }
      case Fails(cid) => if cid in s.tasks { FailMaps(s, cid); }
    }
  }

  /** At every await point of every run the two maps have the same keys, and an event is set if and only if
      the five results of its request have arrived. */
  lemma {:induction false} MapsAlwaysAgree(events: seq<Event>)
    ensures MapsAgree(Run(events))
  {
    if events != [] {
      MapsAlwaysAgree(events[..|events| - 1]);
      StepMapsAgree(Run(events[..|events| - 1]), events[|events| - 1]);
    }
  }

  /** A result touches its own request only, and nothing at all when the request has no map entry. */
  lemma {:induction false} ResultsStayWithTheirRequest(events: seq<Event>, r: Result)
    ensures var s := Run(events); var s' := Next(s, Arrives(r));
            && (r.cid !in s.pending ==> s' == s)
            && s'.tasks == s.tasks && s'.lastSignal == s.lastSignal && s'.signals == s.signals
            && s'.pending.Keys == s.pending.Keys == s.ready.Keys == s'.ready.Keys
            && (forall cid :: cid in s.pending && cid != r.cid ==>
                  s'.pending[cid] == s.pending[cid] && s'.ready[cid] == s.ready[cid])
            && (r.cid in s.pending ==> StoredByKind(s.pending[r.cid], s'.pending[r.cid], r))
  {
    MapsAlwaysAgree(events);
  }

  /** Every kind of result has its own place. */
  predicate StoredByKind(before: Results, after: Results, r: Result) {
    match r
    case QuantResult(_, _) => after == before[QuantKind := r]
    case RiskResult(_) => after == before[RiskKind := r]
    case SentimentResult(_) => after == before[SentimentKind := r]
    case PortfolioResult(_, _) => after == before[PortfolioKind := r]
    case MlResult(_, _, _) => after == before[MlKind := r]
  }

  // ----- Which requests have a map entry -----

  /** The request is being published or waited for. */
  predicate Awaited(s: State, cid: Cid) {
    cid in s.tasks && (s.tasks[cid].1.Publishing? || s.tasks[cid].1.Waiting?)
  }

  /** The requests whose publication failed: the map entries are made before it, outside the block that removes
      them. */
  function Leaked(events: seq<Event>): set<Cid> {
    if events == [] then {}
    else
      var past, ev := events[..|events| - 1], events[|events| - 1];
      Leaked(past) +
      if ev.Fails? && ev.cid in Run(past).tasks && Run(past).tasks[ev.cid].1.Publishing? then {ev.cid} else {}
  }

  /** The map entries are those of the awaited requests and of the leaked ones, which are over. */
  ghost predicate Accounted(s: State, leaked: set<Cid>) {
    && (forall cid :: cid in s.pending <==> Awaited(s, cid) || cid in leaked)
    && (forall cid :: cid in leaked ==> IsDone(s, cid))
  }

  lemma TaskAccounted(s: State, ev: Event, leaked: set<Cid>)
    requires Accounted(s, leaked) && TaskEvent(ev)
    ensures Accounted(Next(s, ev), leaked)
  {
    var s' := Next(s, ev);
    TaskEventFrame(s, ev);
    if IsDone(s, ev.cid) { DoneTakesNoEvent(s, ev); }
    assert Awaited(s', ev.cid) == Awaited(s, ev.cid);
    forall cid ensures Awaited(s', cid) == Awaited(s, cid) {
      if cid != ev.cid && cid in s.tasks { assert s'.tasks[cid] == s.tasks[cid]; }
    }
  }

  lemma EndWaitAccounted(s: State, cid: Cid, leaked: set<Cid>)
    requires Accounted(s, leaked) && cid in s.tasks && s.tasks[cid].1.Waiting?
    ensures Accounted(EndWait(s, cid), leaked)
  {
    assert cid !in leaked;
  }

  lemma FailAccounted(s: State, cid: Cid, leaked: set<Cid>)
    requires Accounted(s, leaked) && cid in s.tasks && !IsDone(s, cid)
    ensures Accounted(Fail(s, cid), leaked + if s.tasks[cid].1.Publishing? then {cid} else {})
  {
  }

  lemma BeginAccounted(s: State, cid: Cid, symbol: Symbol, leaked: set<Cid>)
    requires Accounted(s, leaked)
    ensures Accounted(Begin(s, cid, symbol), leaked)
  {
  }

  lemma CollectAccounted(s: State, r: Result, leaked: set<Cid>)
    requires Accounted(s, leaked)
    ensures Accounted(Collect(s, r), leaked)
  {
    assert Collect(s, r).pending.Keys == s.pending.Keys;
  }

  lemma {:induction false} RunAccounted(events: seq<Event>)
    ensures Accounted(Run(events), Leaked(events))
  {
    if events != [] {
      var past, ev := events[..|events| - 1], events[|events| - 1];
      RunAccounted(past);
      var s, leaked := Run(past), Leaked(past);
      if TaskEvent(ev) {
        TaskAccounted(s, ev, leaked);
        assert Leaked(events) == leaked;
      } else {
        match ev
        case Begins(cid, symbol) => BeginAccounted(s, cid, symbol, leaked);
        case Arrives(r) => CollectAccounted(s, r, leaked);
        case Wakes(cid) => if cid in s.tasks && s.tasks[cid].1.Waiting? { EndWaitAccounted(s, cid, leaked); }
        case TimesOut(cid) => if cid in s.tasks && s.tasks[cid].1.Waiting? { EndWaitAccounted(s, cid, leaked); }
        case Fails(cid) => if cid in s.tasks && !IsDone(s, cid) { FailAccounted(s, cid, leaked); }
      }
    }
  }

  /** At every await point of every run, a request has map entries if and only if it is being published or waited
      for, or its publication failed; the entries of the latter stay for good. */
  lemma {:induction false} PendingIff(events: seq<Event>, cid: Cid)
    ensures cid in Run(events).pending <==> Awaited(Run(events), cid) || cid in Leaked(events)
    ensures cid in Leaked(events) ==> IsDone(Run(events), cid)
  {
    RunAccounted(events);
  }

  ghost predicate IgnoresResults(s: State, cid: Cid) {
    forall r: Result :: r.cid == cid ==> Next(s, Arrives(r)) == s
  }

  /** So late and foreign results, those for a request that is not awaited, change nothing if and only if the
      publication of the request has not failed. */
  lemma {:induction false} LateResultsIgnoredIff(events: seq<Event>, cid: Cid)
    requires !Awaited(Run(events), cid)
    ensures IgnoresResults(Run(events), cid) <==> cid !in Leaked(events)
  {
    PendingIff(events, cid);
    MapsAlwaysAgree(events);
    var s := Run(events);
    if cid in Leaked(events) {
      var r := NewResult(s, cid);
      assert Next(s, Arrives(r)) != s;
    }
  }

  /** A result that differs from the one stored, if any. */
  lemma NewResult(s: State, cid: Cid) returns (r: Result)
    requires MapsAgree(s) && cid in s.pending
    ensures r.cid == cid && Collect(s, r) != s
  {
    var got := s.pending[cid];
    r := QuantResult(cid, if QuantKind in got && got[QuantKind] == QuantResult(cid, 0.0) then 1.0 else 0.0);
    assert Collect(s, r).pending[cid][QuantKind] == r;
  }

  /** A request whose publication failed is over and still collects a late result. */
  lemma LateResultIsKept()
    ensures var events := [Begins("c", "BTCUSDT"), Fails("c")]; var r := RiskResult("c");
            && IsDone(Run(events), "c") && Run(events).pending == map["c" := map[]]
            && Next(Run(events), Arrives(r)).pending == map["c" := map[RiskKind := r]]
  {
    var begun := [Begins("c", "BTCUSDT")];
    var events := [Begins("c", "BTCUSDT"), Fails("c")];
    assert begun[..0] == [] && events[..1] == begun;
    assert Run(begun) == Begin(INITIAL, "c", "BTCUSDT");
    assert Run(events) == Fail(Run(begun), "c");
  }

  // ----- Where a signal comes from -----

  /** Every result in the map has arrived in this run, under this id and kind. */
  predicate Genuine(events: seq<Event>, cid: Cid, results: Results) {
    forall k :: k in results ==> results[k].cid == cid && KindOf(results[k]) == k && Arrives(results[k]) in events
  }

  predicate Complete(events: seq<Event>, cid: Cid, results: Results) {
    REQUIRED <= results.Keys && Genuine(events, cid, results)
  }

  predicate TaskOk(events: seq<Event>, cid: Cid, t: Task) {
    match t
    case Publishing => true
    case Waiting => true
    case Analysing(results) => Complete(events, cid, results)
    case Asking(results) => Complete(events, cid, results) && Approved(results)
    case Inserting(results, raw) => Complete(events, cid, results) && (raw.action.Hold? || Approved(results))
    case Done => true
  }

  /** The request had all five results under its own id, the portfolio agent's an approval, and the
      decision was not to hold. */
  predicate Backed(events: seq<Event>, p: Published) {
    Complete(events, p.cid, p.results) && Approved(p.results) && !p.raw.action.Hold?
  }

  ghost predicate Sourced(events: seq<Event>, s: State) {
    && (forall cid :: cid in s.pending ==> Genuine(events, cid, s.pending[cid]))
    && (forall cid :: cid in s.tasks ==> TaskOk(events, cid, s.tasks[cid].1))
    && (forall i :: 0 <= i < |s.signals| ==> Backed(events, s.signals[i]))
  }

  ghost predicate OncePerRequest(s: State) {
    && (forall i :: 0 <= i < |s.signals| ==> IsDone(s, s.signals[i].cid))
    && (forall i, j :: 0 <= i < j < |s.signals| ==> s.signals[i].cid != s.signals[j].cid)
  }

  lemma SourcedLater(events: seq<Event>, ev: Event, s: State)
    requires Sourced(events, s)
    ensures Sourced(events + [ev], s)
  {
    forall i | 0 <= i < |s.signals| ensures Backed(events + [ev], s.signals[i]) {
      assert Backed(events, s.signals[i]);
    }
    forall cid | cid in s.tasks ensures TaskOk(events + [ev], cid, s.tasks[cid].1) {
      assert TaskOk(events, cid, s.tasks[cid].1);
    }
  }

  /** Five results are all the kinds there are. */
  lemma FiveIsAll(results: Results)
    requires |results| >= |REQUIRED|
    ensures REQUIRED <= results.Keys
  {
    assert results.Keys <= REQUIRED by {
      forall k | k in results.Keys ensures k in REQUIRED {
        match k
        case QuantKind => case RiskKind => case SentimentKind => case PortfolioKind => case MlKind =>
      }
    }
    SubsetOfSameSize(results.Keys, REQUIRED);
  }

  lemma SubsetOfSameSize(small: set<Kind>, big: set<Kind>)
    requires small <= big && |small| >= |big|
    ensures small == big
  {
    assert |big - small| == |big| - |small|;
  }

  /** A change confined to one request that publishes nothing. */
  lemma SourcedAt(events: seq<Event>, s: State, s': State, cid: Cid)
    requires Sourced(events, s) && s'.signals == s.signals
    requires forall c :: c in s'.pending && c != cid ==> c in s.pending && s'.pending[c] == s.pending[c]
    requires forall c :: c in s'.tasks && c != cid ==> c in s.tasks && s'.tasks[c] == s.tasks[c]
    requires cid in s'.pending ==> Genuine(events, cid, s'.pending[cid])
    requires cid in s'.tasks ==> TaskOk(events, cid, s'.tasks[cid].1)
    ensures Sourced(events, s')
  {
    forall c | c in s'.tasks ensures TaskOk(events, c, s'.tasks[c].1) {
      if c != cid { assert TaskOk(events, c, s.tasks[c].1); }
    }
  }

  lemma EndWaitSourced(events: seq<Event>, s: State, cid: Cid)
    requires Sourced(events, s) && cid in s.tasks
    ensures Sourced(events, EndWait(s, cid))
  {
    if cid in s.pending && |s.pending[cid]| >= |REQUIRED| {
      FiveIsAll(s.pending[cid]);
    }
    SourcedAt(events, s, EndWait(s, cid), cid);
  }

  lemma EmitSourced(events: seq<Event>, s: State, cid: Cid, results: Results, raw: Raw, now: real, later: real)
    requires Sourced(events, s) && cid in s.tasks && TaskOk(events, cid, Inserting(results, raw))
    ensures Sourced(events, Emit(s, cid, results, raw, now, later))
  {
    var s' := Emit(s, cid, results, raw, now, later);
    SourcedAt(events, s, s'.(signals := s.signals), cid);
  }

  lemma BeginSourced(events: seq<Event>, s: State, cid: Cid, symbol: Symbol)
    requires Sourced(events, s)
    ensures Sourced(events, Begin(s, cid, symbol))
  {
    if cid !in s.tasks { SourcedAt(events, s, Begin(s, cid, symbol), cid); }
  }

  lemma CollectSourced(events: seq<Event>, s: State, r: Result)
    requires Sourced(events, s) && Arrives(r) in events
    ensures Sourced(events, Collect(s, r))
  {
    if r.cid in s.tasks { assert TaskOk(events, r.cid, s.tasks[r.cid].1); }
    SourcedAt(events, s, Collect(s, r), r.cid);
  }

  lemma FailSourced(events: seq<Event>, s: State, cid: Cid)
    requires Sourced(events, s) && cid in s.tasks
    ensures Sourced(events, Fail(s, cid))
  {
    SourcedAt(events, s, Fail(s, cid), cid);
  }

  lemma TaskSourced(events: seq<Event>, s: State, ev: Event)
    requires Sourced(events, s) && (ev.RequestSent? || ev.Analyses? || ev.Answers?)
    ensures Sourced(events, Next(s, ev))
  {
    TaskEventFrame(s, ev);
    if ev.cid in s.tasks { assert TaskOk(events, ev.cid, s.tasks[ev.cid].1); }
    SourcedAt(events, s, Next(s, ev), ev.cid);
  }

  lemma {:induction false} StepSourced(events: seq<Event>, s: State, ev: Event)
    requires Sourced(events, s) && ev in events
    ensures Sourced(events, Next(s, ev))
  {
    if ev.RequestSent? || ev.Analyses? || ev.Answers? {
      TaskSourced(events, s, ev);
    } else {
      match ev
      case Begins(cid, symbol) => BeginSourced(events, s, cid, symbol);
      case Arrives(r) => CollectSourced(events, s, r);
      case Wakes(cid) => if cid in s.tasks { EndWaitSourced(events, s, cid); }
      case TimesOut(cid) => if cid in s.tasks { EndWaitSourced(events, s, cid); }
      case Emits(cid, now, later) =>
        if cid in s.tasks && s.tasks[cid].1.Inserting? {
          assert TaskOk(events, cid, s.tasks[cid].1);
          EmitSourced(events, s, cid, s.tasks[cid].1.results, s.tasks[cid].1.raw, now, later);
        }
      case Fails(cid) => if cid in s.tasks { FailSourced(events, s, cid); }
    }
  }

  /** A finished request stays finished, and only an emission that finishes its request publishes. */
  lemma {:induction false} DoneStays(s: State, ev: Event, cid: Cid)
    requires IsDone(s, cid)
    ensures IsDone(Next(s, ev), cid)
  {
    if TaskEvent(ev) {
      TaskEventFrame(s, ev);
      if ev.cid == cid { DoneTakesNoEvent(s, ev); }
    } else if ev.Wakes? || ev.TimesOut? {
      WaitKeepsDone(s, ev.cid, cid);
    } else {
      OthersKeepDone(s, ev, cid);
    }
  }

  lemma OthersKeepDone(s: State, ev: Event, cid: Cid)
    requires IsDone(s, cid) && (ev.Begins? || ev.Arrives? || ev.Fails?)
    ensures IsDone(Next(s, ev), cid)
  {
  }

  lemma WaitKeepsDone(s: State, c: Cid, cid: Cid)
    requires IsDone(s, cid)
    ensures c in s.tasks && c != cid ==> IsDone(EndWait(s, c), cid)
  {
  }

  lemma PublishesWhenDone(s: State, ev: Event)
    ensures var s' := Next(s, ev);
            || s'.signals == s.signals
            || (&& ev.Emits? && !IsDone(s, ev.cid) && IsDone(s', ev.cid)
                && |s'.signals| == |s.signals| + 1 && s'.signals[..|s.signals|] == s.signals
                && s'.signals[|s.signals|].cid == ev.cid)
  {
  }

  lemma {:induction false} StepOnce(s: State, ev: Event)
    requires OncePerRequest(s)
    ensures OncePerRequest(Next(s, ev))
  {
    var s' := Next(s, ev);
    PublishesWhenDone(s, ev);
    forall i | 0 <= i < |s.signals| ensures IsDone(s', s.signals[i].cid) {
      DoneStays(s, ev, s.signals[i].cid);
    }
    OnceAppend(s, s');
  }

  lemma OnceAppend(s: State, s': State)
    requires OncePerRequest(s)
    requires forall i :: 0 <= i < |s.signals| ==> IsDone(s', s.signals[i].cid)
    requires
      || s'.signals == s.signals
      || (&& |s'.signals| == |s.signals| + 1 && s'.signals[..|s.signals|] == s.signals
          && !IsDone(s, s'.signals[|s.signals|].cid) && IsDone(s', s'.signals[|s.signals|].cid))
    ensures OncePerRequest(s')
  {
    assert forall i :: 0 <= i < |s.signals| ==> s'.signals[i] == s.signals[i];
  }

  lemma {:induction false} RunSourced(events: seq<Event>)
    ensures Sourced(events, Run(events)) && OncePerRequest(Run(events))
  {
    if events != [] {
      var past, ev := events[..|events| - 1], events[|events| - 1];
      RunSourced(past);
      SourcedLater(past, ev, Run(past));
      assert past + [ev] == events;
      StepSourced(events, Run(past), ev);
      StepOnce(Run(past), ev);
    }
  }

  /** All five results, each of its own kind and carrying the id, the portfolio agent's an approval. */
  predicate FiveResults(cid: Cid, results: Results) {
    && QuantKind in results && results[QuantKind].QuantResult? && results[QuantKind].cid == cid
    && RiskKind in results && results[RiskKind] == RiskResult(cid)
    && SentimentKind in results && results[SentimentKind] == SentimentResult(cid)
    && PortfolioKind in results && results[PortfolioKind] == PortfolioResult(cid, true)
    && MlKind in results && results[MlKind].MlResult? && results[MlKind].cid == cid
  }

  /** In every run, every published signal belongs to a request whose five results all arrived carrying
      that request's id, the portfolio result among them an approval, and to a decision other than to hold; and no
      request publishes twice. */
  lemma {:induction false} EverySignalIsBacked(events: seq<Event>)
    ensures var s := Run(events);
            && (forall i :: 0 <= i < |s.signals| ==>
                  && Backed(events, s.signals[i])
                  && FiveResults(s.signals[i].cid, s.signals[i].results) && s.signals[i].raw.action != Hold
                  && (forall k :: k in s.signals[i].results ==> Arrives(s.signals[i].results[k]) in events))
            && (forall i, j :: 0 <= i < j < |s.signals| ==> s.signals[i].cid != s.signals[j].cid)
  {
    RunSourced(events);
    var s := Run(events);
    forall i | 0 <= i < |s.signals|
      ensures FiveResults(s.signals[i].cid, s.signals[i].results) && s.signals[i].raw.action != Hold
      ensures forall k :: k in s.signals[i].results ==> Arrives(s.signals[i].results[k]) in events
    {
      assert Backed(events, s.signals[i]);
      BackedHasFive(events, s.signals[i]);
    }
  }

  lemma BackedHasFive(events: seq<Event>, p: Published)
    requires Backed(events, p)
    ensures FiveResults(p.cid, p.results)
  {
    var results := p.results;
    assert REQUIRED <= results.Keys;
    assert KindOf(results[QuantKind]) == QuantKind && KindOf(results[RiskKind]) == RiskKind;
    assert KindOf(results[SentimentKind]) == SentimentKind && KindOf(results[PortfolioKind]) == PortfolioKind;
    assert KindOf(results[MlKind]) == MlKind;
  }

  /** An analysis with all results asks the language model if and only if the portfolio agent approved, and otherwise
      is bound to hold. */
  lemma {:induction false} AsksIffApproved(events: seq<Event>, cid: Cid)
    requires var s := Run(events); cid in s.tasks && s.tasks[cid].1.Analysing?
    ensures var s := Run(events); var results := s.tasks[cid].1.results; var t := Next(s, Analyses(cid)).tasks[cid].1;
            && PortfolioKind in results
            && (if results[PortfolioKind] == PortfolioResult(cid, true) then t == Asking(results)
                else t.Inserting? && t.results == results && t.raw.action == Hold)
  {
    RunSourced(events);
    assert TaskOk(events, cid, Run(events).tasks[cid].1);
    assert KindOf(Run(events).tasks[cid].1.results[PortfolioKind]) == PortfolioKind;
  }

  // ----- The cooldown -----

  /** Any two signals of one symbol have recorded times at least the cooldown apart, in order. */
  predicate Spaced(signals: seq<Published>) {
    forall i, j :: 0 <= i < j < |signals| && signals[i].symbol == signals[j].symbol
      ==> signals[j].time >= signals[i].time + COOLDOWN
  }

  predicate LastIsLatest(s: State) {
    forall i :: 0 <= i < |s.signals| ==>
      s.signals[i].symbol in s.lastSignal && s.signals[i].time <= s.lastSignal[s.signals[i].symbol]
  }

  lemma {:induction false} RunSpaced(events: seq<Event>)
    ensures Spaced(Run(events).signals) && LastIsLatest(Run(events))
  {
    if events != [] {
      RunSpaced(events[..|events| - 1]);
      StepSpaced(Run(events[..|events| - 1]), events[|events| - 1]);
    }
  }

  lemma StepSpaced(s: State, ev: Event)
    requires Spaced(s.signals) && LastIsLatest(s)
    ensures Spaced(Next(s, ev).signals) && LastIsLatest(Next(s, ev))
  {
    var s' := Next(s, ev);
    if s'.signals != s.signals {
      assert s'.signals[|s.signals|].time >= LastSignal(s, s'.signals[|s.signals|].symbol) + COOLDOWN;
    }
  }

  predicate LastIsASignal(s: State) {
    forall symbol :: symbol in s.lastSignal ==>
      exists i :: 0 <= i < |s.signals| && s.signals[i].symbol == symbol && s.signals[i].time == s.lastSignal[symbol]
  }

  lemma EmitRecords(s: State, cid: Cid, results: Results, raw: Raw, now: real, later: real)
    requires LastIsASignal(s) && cid in s.tasks
    ensures LastIsASignal(Emit(s, cid, results, raw, now, later))
  {
    var s' := Emit(s, cid, results, raw, now, later);
    forall symbol | symbol in s'.lastSignal
      ensures exists i :: 0 <= i < |s'.signals| && s'.signals[i].symbol == symbol && s'.signals[i].time == s'.lastSignal[symbol]
    {
      if symbol in s.lastSignal && s'.lastSignal[symbol] == s.lastSignal[symbol] {
        var i :| 0 <= i < |s.signals| && s.signals[i].symbol == symbol && s.signals[i].time == s.lastSignal[symbol];
        assert s'.signals[i] == s.signals[i];
      } else {
        assert s'.signals[|s.signals|].symbol == symbol;
      }
    }
  }

  predicate SameRecord(s: State, s': State) {
    s'.lastSignal == s.lastSignal && s'.signals == s.signals
  }

  lemma TaskKeepsRecord(s: State, cid: Cid, t: Task)
    requires cid in s.tasks
    ensures SameRecord(s, SetTask(s, cid, t)) && SameRecord(s, EndWait(s, cid)) && SameRecord(s, Fail(s, cid))
  {
  }

  lemma OnlyEmissionsRecord(s: State, ev: Event)
    requires !ev.Emits?
    ensures SameRecord(s, Next(s, ev))
  {
    match ev
    case Begins(_, _) =>
    case RequestSent(cid) => if cid in s.tasks { TaskKeepsRecord(s, cid, Waiting); }
    case Arrives(_) =>
    case Wakes(cid) => if cid in s.tasks { TaskKeepsRecord(s, cid, Done); }
    case TimesOut(cid) => if cid in s.tasks { TaskKeepsRecord(s, cid, Done); }
    case Analyses(cid) =>
      if cid in s.tasks && s.tasks[cid].1.Analysing? {
        TaskKeepsRecord(s, cid, Asking(s.tasks[cid].1.results));
        TaskKeepsRecord(s, cid, Inserting(s.tasks[cid].1.results, BLOCKED_RAW));
      }
    case Answers(cid, raw) =>
      if cid in s.tasks && s.tasks[cid].1.Asking? {
        TaskKeepsRecord(s, cid, Inserting(s.tasks[cid].1.results, raw));
      }
    case Fails(cid) => if cid in s.tasks { TaskKeepsRecord(s, cid, Done); }
  }

  lemma {:induction false} RunRecords(events: seq<Event>)
    ensures LastIsASignal(Run(events))
  {
    if events != [] {
      var s, ev := Run(events[..|events| - 1]), events[|events| - 1];
      RunRecords(events[..|events| - 1]);
      if !ev.Emits? {
        OnlyEmissionsRecord(s, ev);
      } else if ev.cid in s.tasks && s.tasks[ev.cid].1.Inserting? {
        EmitRecords(s, ev.cid, s.tasks[ev.cid].1.results, s.tasks[ev.cid].1.raw, ev.now, ev.later);
      }
    }
  }

  /** The symbol has had no signal in the last 300 seconds. The clock counts as having started with one. */
  predicate CooledDown(signals: seq<Published>, symbol: Symbol, now: real) {
    if exists i :: 0 <= i < |signals| && signals[i].symbol == symbol
    then forall i :: 0 <= i < |signals| && signals[i].symbol == symbol ==> now >= signals[i].time + 300.0
    else now >= 300.0
  }

  /** In every run, an analysis that has its decision publishes exactly when the decision is not to hold and the symbol
      has cooled down: then one signal, with its own id, symbol, results and decision. Either way it is over. */
  lemma {:induction false} PublishesIffCooledDown(events: seq<Event>, cid: Cid, now: real, later: real)
    requires cid in Run(events).tasks && Run(events).tasks[cid].1.Inserting? && now <= later
    ensures var s := Run(events); var s' := Next(s, Emits(cid, now, later));
            var symbol, t := s.tasks[cid].0, s.tasks[cid].1;
            && IsDone(s', cid)
            && s'.signals == if t.raw.action != Hold && CooledDown(s.signals, symbol, now)
                             then s.signals + [Published(later, cid, symbol, t.results, t.raw)] else s.signals
  {
    RunSpaced(events);
    RunRecords(events);
    LastDecides(Run(events), Run(events).tasks[cid].0, now);
  }

  lemma LastDecides(s: State, symbol: Symbol, now: real)
    requires LastIsLatest(s) && LastIsASignal(s)
    ensures now - LastSignal(s, symbol) < COOLDOWN <==> !CooledDown(s.signals, symbol, now)
  {
    if symbol in s.lastSignal {
      var i :| 0 <= i < |s.signals| && s.signals[i].symbol == symbol && s.signals[i].time == s.lastSignal[symbol];
    }
  }

  /** Signals of a symbol with recorded times in the closed span [a, a + t]. */
  function CountInSpan(signals: seq<Published>, symbol: Symbol, a: real, t: real): nat {
    if signals == [] then 0
    else
      CountInSpan(signals[..|signals| - 1], symbol, a, t) +
      var p := signals[|signals| - 1];
      if p.symbol == symbol && a <= p.time <= a + t then 1 else 0
  }

  /** The last of `n` spaced signals in a span is at least n - 1 cooldowns into it. */
  lemma {:induction false} LastInSpan(signals: seq<Published>, symbol: Symbol, a: real, t: real) returns (i: nat)
    requires Spaced(signals) && CountInSpan(signals, symbol, a, t) >= 1
    ensures i < |signals| && signals[i].symbol == symbol && signals[i].time <= a + t
    ensures signals[i].time >= a + COOLDOWN * (CountInSpan(signals, symbol, a, t) - 1) as real
  {
    var front, last := signals[..|signals| - 1], |signals| - 1;
    var n := CountInSpan(front, symbol, a, t);
    if CountInSpan(signals, symbol, a, t) == n {
      i := LastInSpan(front, symbol, a, t);
    } else {
      i := last;
      if n >= 1 {
        var k := LastInSpan(front, symbol, a, t);
        assert signals[k] == front[k];
      }
    }
  }

  /** In every run, over all interleavings of concurrent analyses, any span of length t holds at most
      floor(t / 300) + 1 signals of one symbol. */
  lemma CooldownHolds(events: seq<Event>, symbol: Symbol, a: real, t: real)
    requires t >= 0.0
    ensures Spaced(Run(events).signals)
    ensures CountInSpan(Run(events).signals, symbol, a, t) <= (t / COOLDOWN).Floor + 1
  {
    RunSpaced(events);
    var n := CountInSpan(Run(events).signals, symbol, a, t);
    if n >= 1 {
      var i := LastInSpan(Run(events).signals, symbol, a, t);
      assert COOLDOWN * (n - 1) as real <= t;
      assert (n - 1) as real <= t / COOLDOWN;
    }
  }

  // ----- What a signal asks for -----

  ghost predicate WithinLimits(cfg: Config, sig: Signal) {
    sig.leverage == cfg.maxLeverage && (cfg.balance >= 0.0 ==> sig.sizeUsd <= cfg.balance * cfg.maxPositionPct)
  }

  /** No signal asks for more than the configured fraction of the starting balance, scaled up or not. */
  lemma SignalsWithinLimits(cfg: Config, events: seq<Event>)
    ensures var s := Run(events);
            forall i :: 0 <= i < |s.signals| ==>
              REQUIRED <= s.signals[i].results.Keys && WithinLimits(cfg, SignalOf(cfg, s.signals[i]))
  {
    RunSourced(events);
    var s := Run(events);
    forall i | 0 <= i < |s.signals|
      ensures REQUIRED <= s.signals[i].results.Keys && WithinLimits(cfg, SignalOf(cfg, s.signals[i]))
    {
      assert Backed(events, s.signals[i]);
      var p := s.signals[i];
      BuildWithinLimits(cfg, p.cid, p.symbol, Decide(cfg, p.results, p.raw));
    }
  }

  lemma BuildWithinLimits(cfg: Config, cid: Cid, symbol: Symbol, d: Decision)
    ensures WithinLimits(cfg, BuildSignal(cfg, cid, symbol, d))
  {
    var m := Min(d.sizePct, cfg.maxPositionPct);
    if cfg.balance >= 0.0 {
      assert cfg.balance * (cfg.maxPositionPct - m) >= 0.0;
    }
  }

  /** Measured from the close the quant agent reported: the stop-loss costs exactly the decided fraction
      and the take-profit earns exactly the decided fraction, on either side. */
  predicate LevelsFit(sig: Signal, close: real, raw: Raw) {
    && sig.side == raw.side
    && Pnl(1.0, close, sig.sl, sig.side) == -(close * raw.slPct)
    && Pnl(1.0, close, sig.tp, sig.side) == close * raw.tpPct
  }

  /** Every signal of every run carries the id and symbol of its request, the side of the decision, and
      levels that lie the decided fractions from the close in its own quant result. */
  lemma {:induction false} SignalsFitTheirDecision(cfg: Config, events: seq<Event>, i: nat)
    requires i < |Run(events).signals|
    ensures var p := Run(events).signals[i];
            && REQUIRED <= p.results.Keys && p.results[QuantKind].QuantResult?
            && SignalOf(cfg, p).cid == p.cid && SignalOf(cfg, p).symbol == p.symbol
            && LevelsFit(SignalOf(cfg, p), p.results[QuantKind].close, p.raw)
  {
    RunSourced(events);
    var p := Run(events).signals[i];
    assert Backed(events, p);
    assert KindOf(p.results[QuantKind]) == QuantKind;
    BuildFits(cfg, p.cid, p.symbol, Decide(cfg, p.results, p.raw));
  }

  lemma BuildFits(cfg: Config, cid: Cid, symbol: Symbol, d: Decision)
    ensures LevelsFit(BuildSignal(cfg, cid, symbol, d), d.entryPrice, d.raw)
  {
    var e, l, t := d.entryPrice, d.raw.slPct, d.raw.tpPct;
    assert e * (1.0 + l) == e + e * l && e * (1.0 - l) == e - e * l;
    assert e * (1.0 + t) == e + e * t && e * (1.0 - t) == e - e * t;
  }

  /** The balance times the smaller of the fraction and the cap. */
  predicate Sized(cfg: Config, sig: Signal, fraction: real) {
    sig.sizeUsd == cfg.balance * (if fraction <= cfg.maxPositionPct then fraction else cfg.maxPositionPct)
  }

  /** A confident scale-up asks for a fifth more than decided, a scale-down for a fifth less, anything else for what
      was decided. */
  predicate SizeFits(cfg: Config, sig: Signal, ml: Result, decided: real)
    requires ml.MlResult?
  {
    && (ml.adjustment == ScaleUp && ml.confidence > 0.6 ==> Sized(cfg, sig, 1.2 * decided))
    && (ml.adjustment == ScaleDown ==> Sized(cfg, sig, 0.8 * decided))
    && (ml.adjustment == HoldSize || (ml.adjustment == ScaleUp && ml.confidence <= 0.6) ==> Sized(cfg, sig, decided))
  }

  lemma BuildSizes(cfg: Config, p: Published)
    requires REQUIRED <= p.results.Keys && p.results[MlKind].MlResult?
    ensures SizeFits(cfg, SignalOf(cfg, p), p.results[MlKind], p.raw.sizePct)
    ensures SignalOf(cfg, p).entryHint == p.raw.entryHint
  {
  }

  /** In every run, the size of every signal follows the result of its own machine-learning agent, within the cap. */
  lemma {:induction false} SizesFollowTheAdjustment(cfg: Config, events: seq<Event>, i: nat)
    requires i < |Run(events).signals|
    ensures var p := Run(events).signals[i];
            && REQUIRED <= p.results.Keys && p.results[MlKind].MlResult?
            && SizeFits(cfg, SignalOf(cfg, p), p.results[MlKind], p.raw.sizePct)
            && SignalOf(cfg, p).entryHint == p.raw.entryHint
  {
    EverySignalIsBacked(events);
    BuildSizes(cfg, Run(events).signals[i]);
  }

  // ----- A run that publishes -----

  lemma {:induction false} RunStep(events: seq<Event>, k: nat)
    requires k < |events|
    ensures Run(events[..k + 1]) == Next(Run(events[..k]), events[k])
  {
    assert events[..k + 1][..k] == events[..k];
  }

  function FiveArrive(cid: Cid): seq<Event> {
    [Arrives(QuantResult(cid, 100.0)), Arrives(RiskResult(cid)), Arrives(SentimentResult(cid)),
     Arrives(PortfolioResult(cid, true)), Arrives(MlResult(cid, HoldSize, 0.5))]
  }

  function AllFive(cid: Cid): Results {
    map[QuantKind := QuantResult(cid, 100.0), RiskKind := RiskResult(cid), SentimentKind := SentimentResult(cid),
        PortfolioKind := PortfolioResult(cid, true), MlKind := MlResult(cid, HoldSize, 0.5)]
  }

  function WaitsWith(cid: Cid, symbol: Symbol, results: Results): State {
    State(map[cid := results], map[cid := REQUIRED <= results.Keys], map[], map[cid := (symbol, Waiting)], [])
  }

  function GoesOn(cid: Cid, symbol: Symbol, t: Task): State {
    State(map[], map[], map[], map[cid := (symbol, t)], [])
  }

  lemma CollectsInto(cid: Cid, symbol: Symbol, results: Results, r: Result)
    requires r.cid == cid
    ensures Next(WaitsWith(cid, symbol, results), Arrives(r)) == WaitsWith(cid, symbol, results[KindOf(r) := r])
  {
    var s := WaitsWith(cid, symbol, results);
    var got := results[KindOf(r) := r];
    assert results.Keys <= got.Keys;
    assert s.pending[cid := got] == map[cid := got];
    assert (if REQUIRED <= got.Keys then s.ready[cid := true] else s.ready) == map[cid := REQUIRED <= got.Keys];
  }

  lemma Sent(cid: Cid, symbol: Symbol)
    ensures Next(Next(INITIAL, Begins(cid, symbol)), RequestSent(cid)) == WaitsWith(cid, symbol, map[])
  {
    assert QuantKind in REQUIRED;
  }

  /** The five results arrive and the event is set. */
  lemma {:induction false} FiveCollected(cid: Cid, symbol: Symbol)
    ensures Run([Begins(cid, symbol), RequestSent(cid)] + FiveArrive(cid)) == WaitsWith(cid, symbol, AllFive(cid))
  {
    var r1, r2, r3 := QuantResult(cid, 100.0), RiskResult(cid), SentimentResult(cid);
    var r4, r5 := PortfolioResult(cid, true), MlResult(cid, HoldSize, 0.5);
    var m1: Results := map[QuantKind := r1];
    var m2, m3, m4 := m1[RiskKind := r2], m1[RiskKind := r2][SentimentKind := r3],
                      m1[RiskKind := r2][SentimentKind := r3][PortfolioKind := r4];
    var start := [Begins(cid, symbol)];
    OneMoreEvent([], Begins(cid, symbol));
    OneMoreEvent(start, RequestSent(cid));
    assert [] + [Begins(cid, symbol)] == start;
    Sent(cid, symbol);
    var e0 := start + [RequestSent(cid)];
    CollectsInto(cid, symbol, map[], r1);
    CollectsInto(cid, symbol, m1, r2);
    CollectsInto(cid, symbol, m2, r3);
    CollectsInto(cid, symbol, m3, r4);
    CollectsInto(cid, symbol, m4, r5);
    OneMoreEvent(e0, Arrives(r1));
    OneMoreEvent(e0 + [Arrives(r1)], Arrives(r2));
    OneMoreEvent(e0 + [Arrives(r1)] + [Arrives(r2)], Arrives(r3));
    OneMoreEvent(e0 + [Arrives(r1)] + [Arrives(r2)] + [Arrives(r3)], Arrives(r4));
    OneMoreEvent(e0 + [Arrives(r1)] + [Arrives(r2)] + [Arrives(r3)] + [Arrives(r4)], Arrives(r5));
    assert e0 + [Arrives(r1)] + [Arrives(r2)] + [Arrives(r3)] + [Arrives(r4)] + [Arrives(r5)] ==
           [Begins(cid, symbol), RequestSent(cid)] + FiveArrive(cid);
    assert m4[MlKind := r5] == AllFive(cid);
  }

  lemma WaitEnds(cid: Cid, symbol: Symbol)
    ensures Next(WaitsWith(cid, symbol, AllFive(cid)), Wakes(cid)) == GoesOn(cid, symbol, Analysing(AllFive(cid)))
  {
    var s := WaitsWith(cid, symbol, AllFive(cid));
    assert AllFive(cid).Keys == REQUIRED;
    assert |AllFive(cid)| == |AllFive(cid).Keys|;
    assert s.pending - {cid} == map[] && s.ready - {cid} == map[];
  }

  lemma ModelAnswers(cid: Cid, symbol: Symbol, raw: Raw)
    ensures Next(Next(GoesOn(cid, symbol, Analysing(AllFive(cid))), Analyses(cid)), Answers(cid, raw)) ==
            GoesOn(cid, symbol, Inserting(AllFive(cid), raw))
  {
    assert AllFive(cid).Keys == REQUIRED;
    assert Next(GoesOn(cid, symbol, Analysing(AllFive(cid))), Analyses(cid)) == GoesOn(cid, symbol, Asking(AllFive(cid)));
  }

  lemma GoesOut(cid: Cid, symbol: Symbol, raw: Raw, now: real)
    requires raw.action == Buy && now >= 300.0
    ensures Next(GoesOn(cid, symbol, Inserting(AllFive(cid), raw)), Emits(cid, now, now)).signals ==
            [Published(now, cid, symbol, AllFive(cid), raw)]
  {
  }

  /** For every id, symbol and decision to buy there is a run that publishes: the five results arrive, the portfolio
      agent's an approval, and the first 300 seconds of the clock are over. */
  lemma {:induction false} SignalHappens(cid: Cid, symbol: Symbol, raw: Raw, now: real)
    requires raw.action == Buy && now >= 300.0
    ensures var collected := [Begins(cid, symbol), RequestSent(cid)] + FiveArrive(cid);
            Run(collected + [Wakes(cid)] + [Analyses(cid)] + [Answers(cid, raw)] + [Emits(cid, now, now)]).signals ==
            [Published(now, cid, symbol, AllFive(cid), raw)]
  {
    var collected := [Begins(cid, symbol), RequestSent(cid)] + FiveArrive(cid);
    FiveCollected(cid, symbol);
    WaitEnds(cid, symbol);
    ModelAnswers(cid, symbol, raw);
    GoesOut(cid, symbol, raw, now);
    OneMoreEvent(collected, Wakes(cid));
    OneMoreEvent(collected + [Wakes(cid)], Analyses(cid));
    OneMoreEvent(collected + [Wakes(cid)] + [Analyses(cid)], Answers(cid, raw));
    OneMoreEvent(collected + [Wakes(cid)] + [Analyses(cid)] + [Answers(cid, raw)], Emits(cid, now, now));
  }

  lemma {:induction false} OneMoreEvent(events: seq<Event>, ev: Event)
    ensures Run(events + [ev]) == Next(Run(events), ev)
  {
    assert (events + [ev])[..|events + [ev]| - 1] == events;
  }

  // ----- The mutable agent -----

  class DirectorAgent {
    var pending: map<Cid, Results>
    var ready: map<Cid, bool>
    var lastSignal: map<Symbol, real>
    var tasks: map<Cid, (Symbol, Task)>
    var signals: seq<Published>
    ghost var history: seq<Event>

    ghost function Value(): State
      reads this
    {
      State(pending, ready, lastSignal, tasks, signals)
    }

    ghost predicate Valid()
      reads this
    {
      Value() == Run(history)
    }

    constructor ()
      ensures Valid() && history == []
    {
      pending, ready, lastSignal, tasks, signals, history := map[], map[], map[], map[], [], [];
    }

    ghost method Record(ev: Event)
      requires Value() == Next(Run(history), ev)
      modifies this`history
      ensures Valid() && history == old(history) + [ev]
    {
      history := history + [ev];
      assert history[..|history| - 1] == old(history);
    }

    /** Up to the publication of the request. */
    method BeginAnalysis(cid: Cid, symbol: Symbol)
      requires Valid() && cid !in tasks
      modifies this
      ensures Valid() && history == old(history) + [Begins(cid, symbol)]
    {
      pending := pending[cid := map[]];
      ready := ready[cid := false];
      tasks := tasks[cid := (symbol, Publishing)];
      Record(Begins(cid, symbol));
    }

    /** The request is on the bus; the analysis starts to wait. */
    method StartWaiting(cid: Cid)
      requires Valid() && cid in tasks && tasks[cid].1.Publishing?
      modifies this
      ensures Valid() && history == old(history) + [RequestSent(cid)]
    {
      tasks := tasks[cid := (tasks[cid].0, Waiting)];
      Record(RequestSent(cid));
    }

    method CollectResult(r: Result)
      requires Valid()
      modifies this
      ensures Valid() && history == old(history) + [Arrives(r)]
    {
      MapsAlwaysAgree(history);
      if r.cid in pending {
        var got := pending[r.cid][KindOf(r) := r];
        pending := pending[r.cid := got];
        if REQUIRED <= got.Keys {
          ready := ready[r.cid := true];
        }
      }
      Record(Arrives(r));
    }

    /** Takes the results and both map entries, and goes on with five results only. */
    method TakeResults(cid: Cid)
      requires cid in tasks
      modifies this`pending, this`ready, this`tasks
      ensures Value() == EndWait(old(Value()), cid)
    {
      var results: Results := if cid in pending then pending[cid] else map[];
      pending := pending - {cid};
      ready := ready - {cid};
      if |results| < |REQUIRED| {
        tasks := tasks[cid := (tasks[cid].0, Done)];
      } else {
        tasks := tasks[cid := (tasks[cid].0, Analysing(results))];
      }
    }

    /** The wait ends because the event is set, or because the timeout expires. */
    method FinishWait(cid: Cid, timedOut: bool)
      requires Valid() && cid in tasks && tasks[cid].1.Waiting?
      requires timedOut || (cid in ready && ready[cid])
      modifies this
      ensures Valid() && history == old(history) + [if timedOut then TimesOut(cid) else Wakes(cid)]
    {
      TakeResults(cid);
      Record(if timedOut then TimesOut(cid) else Wakes(cid));
    }

    /** The decision to ask the language model, or to hold because the portfolio agent blocks. */
    method Analyse(cid: Cid)
      requires Valid() && cid in tasks && tasks[cid].1.Analysing?
      modifies this
      ensures Valid() && history == old(history) + [Analyses(cid)]
    {
      RunSourced(history);
      assert TaskOk(history, cid, tasks[cid].1);
      var results := tasks[cid].1.results;
      if Approved(results) {
        tasks := tasks[cid := (tasks[cid].0, Asking(results))];
      } else {
        tasks := tasks[cid := (tasks[cid].0, Inserting(results, BLOCKED_RAW))];
      }
      Record(Analyses(cid));
    }

    /** The language model has answered. */
    method TakeAnswer(cid: Cid, raw: Raw)
      requires Valid() && cid in tasks && tasks[cid].1.Asking?
      modifies this
      ensures Valid() && history == old(history) + [Answers(cid, raw)]
    {
      RunSourced(history);
      assert TaskOk(history, cid, tasks[cid].1);
      tasks := tasks[cid := (tasks[cid].0, Inserting(tasks[cid].1.results, raw))];
      Record(Answers(cid, raw));
    }

    /** An exception ends the analysis; only a wait cleans up behind itself. */
    method Abort(cid: Cid)
      requires Valid() && cid in tasks && !tasks[cid].1.Done?
      modifies this
      ensures Valid() && history == old(history) + [Fails(cid)]
    {
      if tasks[cid].1.Waiting? {
        pending := pending - {cid};
        ready := ready - {cid};
      }
      tasks := tasks[cid := (tasks[cid].0, Done)];
      Record(Fails(cid));
    }

    /** Hold, cooldown guard, recording, publication. */
    method EmitSignal(cid: Cid, now: real, later: real)
      requires Valid() && cid in tasks && tasks[cid].1.Inserting? && now <= later
      modifies this
      ensures Valid() && history == old(history) + [Emits(cid, now, later)]
    {
      var symbol, results, raw := tasks[cid].0, tasks[cid].1.results, tasks[cid].1.raw;
      tasks := tasks[cid := (symbol, Done)];
      if !raw.action.Hold? {
        var last := if symbol in lastSignal then lastSignal[symbol] else 0.0;
        if now - last >= COOLDOWN {
          lastSignal := lastSignal[symbol := later];
          signals := signals + [Published(later, cid, symbol, results, raw)];
        }
      }
      Record(Emits(cid, now, later));
    }
  }
}
