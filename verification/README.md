# Verified model of the trading core of AICryptoTrader

A Dafny model of the parts of the system that move money, keep state across asynchronous handlers, or transform
data step by step, with proofs of what they keep. `dafny verify dfyconfig.toml` checks everything.

## How the model is built

- **Handlers as state machines.** The paper-trade engine and the director are asyncio programs. Each stretch of code
  between two awaits is one step; publishing appends to a log and then yields. A run is any sequence of events, and an
  event its handler is not ready for changes nothing, so a statement about all event sequences is a statement about
  all interleavings. An uncaught exception is a crashed state that is part of the run.
- **Objects as classes.** Account, breakers, engine, portfolio agent, director, trades table, prompt store and login
  limiter are classes whose methods assign their fields as the source does. Each method is proved to take the step of
  a specification function; a ghost history ties the object to the run it has seen. The laws are lemmas about runs.
- **Loops as loops.** The backtest, the generation loop and nucleus filtering are methods over sequences and arrays
  with invariants, against quantified or reference specifications.
- Money, prices and probabilities are exact reals. Clock readings, database failures, the language model's answer, the
  network's draws, the sort and the softmax are parameters, constrained only where stated.

| file | what it models |
|---|---|
| `Messages.dfy` | bus messages of the engine, options and sums |
| `TradeMath.dfy`, `PaperAccount.dfy` | trade formulas, account and ledger |
| `Breakers.dfy`, `Guards.dfy` | circuit breakers and signal guards |
| `EngineSpec.dfy`, `EngineSafety.dfy`, `EngineLoss.dfy`, `EngineTrades.dfy`, `EngineHalt.dfy`, `EngineExamples.dfy` | the engine's steps, conservation and safety, loss bounds, what opens and closes are made of, when a handler stops, concrete runs |
| `PaperTradeEngine.dfy` | the mutable engine |
| `TradesTable.dfy`, `PortfolioMirror.dfy` | trades table and portfolio agent against the engine |
| `Director.dfy` | request/response matching and cooldown of concurrent analyses |
| `Backtest.dfy` | first-touch scan and equity curve |
| `RollingContext.dfy`, `Nucleus.dfy`, `BitCodec.dfy` | generation buffers, top-k/top-p filtering, token codecs |
| `PromptStore.dfy`, `LoginLimiter.dfy` | versioned prompts behind a cache, login attempts with a collector |

## What the proofs found

Where the code does not meet an expected property, the model follows the code: a concrete input, or a statement about
every input outside the condition, shows the failure, and a condition says when the property holds.

- A direction flip never reopens. `close_reason` admits only `sl`, `tp`, `liq` and `manual`, so the closing update for
  `direction_flip` raises and the signal handler stops, although the engine's header comment promises the flip
  (`EngineSafety.FlipNeverReopens`, `EngineSafety.FlipCrashes`, `EngineHalt.FlipHappens`). No position is opened after
  it (`EngineHalt.FlipEndsTrading`).
- The same happens to the mark handler after a close by age (`max_hold`): it is down exactly when there was one
  (`EngineHalt.AgeCloseHaltsMarksIff`, `EngineHalt.AgeCloseHappens`), and from then on no stop-loss, take-profit or
  liquidation is enforced (`EngineHalt.NoLevelIsEnforcedAgain`). The ledger holds in all these states.
- The portfolio agent can miss an open position: a signal may reopen a symbol while the mark handler is between taking
  it out of the account and publishing that, and the late closing update then removes the new position
  (`PortfolioMirror.MirrorCanMissAnOpenPosition`). The picture is right exactly when no symbol is hidden in this way
  (`PortfolioMirror.MirrorShowsAccountIff`), which holds if no signal arrives for a symbol in the middle of its close.
- Isolated margin does not bound the loss of a close by age, which is checked before liquidation
  (`EngineExamples.AgeLimitIsUnbounded`).
- `Account.close` pays the funding total a second time (`PaperAccount.FundingBookedTwice`). The books are right
  throughout a history exactly when no position with funding on it is closed (`PaperAccount.AlwaysBookedOnceIff`). The
  engine books no funding, so its ledger is exact.
- A cached prompt can stay out of date when a save commits and invalidates between a get's query and its store
  (`PromptStore.OvertakenGetStaysStale`), and only then (`PromptStore.CacheIsNewestIff`).
- A late result is not always ignored: the director makes the map entries of a request before it publishes it, outside
  the block that removes them, so after a failed publication they stay and go on collecting
  (`Director.LateResultIsKept`). For every other request that is over, late results change nothing
  (`Director.LateResultsIgnoredIff`).
- A `min_tokens_to_keep` of m > 1 keeps at least m + 1 tokens, which is one too many exactly when the nucleus does not
  exceed m and the vocabulary does (`Nucleus.MinimumKeepsOneMore`, `Nucleus.KeptAsAskedIff`); `top_k > 0`
  switches `top_p` off.
- A forecast has `pred_len` rows if and only if 1 ≤ `pred_len` ≤ `max_context`.
- The half tokens decode to the signs they encode if and only if both halves have the same number of bits.
- The drawdown breaker is the pairwise statement about equities exactly for thresholds of at most one
  (`Breakers.PairFormIff`).
- The login limiter admits up to 2·max − 1 attempts in one interval, and not more.

## Model

| member | source | states |
|---|---|---|
| `EngineSafety.Conservation` | backend/src/cryptoswarm/papertrade/engine.py:68-227 | in every reachable state of every interleaving, crashed handlers included: cash plus margins of open positions = starting balance + net results of all closed trades − entry fees of the open ones |
| `EngineSafety.TradeLogReplays` | backend/src/cryptoswarm/papertrade/engine.py:68-204 | in every run no execution overwrites an open symbol, no position is closed twice or without having been opened, the log replays to exactly the open positions, and the open count stays within the cap |
| `EngineSafety.OpensAreGuarded` | backend/src/cryptoswarm/papertrade/engine.py:88-137 | whenever a run opens a position: the symbol was free, both breakers were untripped, there was room under the cap, and size, leverage and levels passed the guard at that moment |
| `EngineSafety.StepEffect` | backend/src/cryptoswarm/papertrade/engine.py:68-184 | every step does exactly one of three things to account and trade log (nothing but a mark, one open, one close), with the exit price and reason the handler that ran prescribes |
| `EngineSafety.OpenMarksAreWithinLevels` | backend/src/cryptoswarm/papertrade/engine.py:149-184 | in every run the latest mark of a position that is still open lies strictly within stop-loss, take-profit and liquidation price |
| `EngineSafety.ClosesAreTriggered` | backend/src/cryptoswarm/papertrade/engine.py:73-184 | in every run every close is caused by a signal of the opposite side, by more than six hours of age, or by a mark that reached the level the position is closed at, liquidation before stop-loss before take-profit |
| `EngineTrades.OpensWhatIsAsked` | backend/src/cryptoswarm/papertrade/engine.py:114-145 | whenever a run opens a position, it has the signal's symbol, side, levels, leverage and id, the opening time of the event, the fill price the source prefers, the quantity worth the signal's size, one leverage-th of it as margin, the entry fee and the liquidation distance; it is the only change, it costs margin and fee, and the message shows its fields |
| `EngineTrades.EveryPositionHasItsSignal` | backend/src/cryptoswarm/papertrade/engine.py:68-184 | in every run every open position is, field by field and with its opening time, the one that some earlier signal asked for when it arrived |
| `EngineTrades.TermsStay` | backend/src/cryptoswarm/papertrade/engine.py:149-184 | between open and close nothing of a position changes but its mark, which becomes the price that arrives |
| `EngineTrades.StaysOpen` | backend/src/cryptoswarm/papertrade/engine.py:149-184 | a position marked within its levels no later than six hours after its opening stays open and is reported with that mark |
| `EngineTrades.ClosesWhatWasOpen` | backend/src/cryptoswarm/papertrade/engine.py:186-204 | whenever a run closes a position, it alone leaves; margin and gain less the exit fee (quantity × exit price × taker rate) come back; and the message carries its id, that fee and the gain less both fees |
| `EngineTrades.UpdatesAreTrue` | backend/src/cryptoswarm/papertrade/engine.py:220-240 | every position update of every run shows an open position as it then is, gain at its mark included, or the close being finished |
| `EngineTrades.SignalOutcome` | backend/src/cryptoswarm/papertrade/engine.py:68-137 | a signal that an idle handler takes is skipped as a duplicate, closes the opposite side, is vetoed by the breakers, is vetoed in the name of its first failing guard, crashes the handler if it cannot be filled, or opens a position: which one is decided by the state, and vetoes carry its id |
| `EngineTrades.OnlySignalsAreVetoed` | backend/src/cryptoswarm/papertrade/engine.py:89-112 | no other event adds a veto |
| `EngineTrades.TripsAreReported` | backend/src/cryptoswarm/papertrade/engine.py:206-218 | a trip is reported exactly when a close resumes and finds the daily breaker tripped, with the breaker's last value and its threshold |
| `EngineSafety.FlipNeverReopens` | backend/src/cryptoswarm/papertrade/engine.py:75-81 | in every run the signal handler never gets from closing the old direction to opening the new one, although the header comment promises a flip |
| `EngineSafety.FlipCrashes` | backend/src/cryptoswarm/papertrade/engine.py:206-225 | because the update type does not admit `direction_flip`, the handler is down within two resumptions of such a close, with no trade, no opening and no closing update published (a tripped daily breaker may still be reported) |
| `EngineSafety.DailyBreakerCountsTheLog` | backend/src/cryptoswarm/papertrade/engine.py:206-208 | in every run, operator resets included, the daily breaker holds the sum of all published net results less those still in flight and less what it had counted at the last reset |
| `EngineSafety.OpensWithinDailyLoss` | backend/src/cryptoswarm/papertrade/engine.py:89-96 | every run opens only while the net result of the trades closed since the last reset (but for one close in flight) is above minus the daily loss threshold; a zero threshold admits zero |
| `EngineSafety.DrawdownBreakerSawTheEquities` | backend/src/cryptoswarm/papertrade/engine.py:206-208 | in every run the drawdown breaker is what the history of equities fed to it (one per close, at the resumption) and operator resets makes it |
| `EngineSafety.OpensWithinDrawdown` | backend/src/cryptoswarm/papertrade/engine.py:89-96 | every run opens only while no equity fed since the last reset lies the drawdown threshold below the running peak, hence (threshold at most one) below no earlier positive one |
| `EngineLoss.EveryCloseCredits` | backend/src/cryptoswarm/papertrade/engine.py:186-191 | for every close of every run: the balance moves by quantity × credit rate at the exit price, which for a positive quantity is nonnegative if and only if the rate is, and the reported net result is that credit less margin and entry fee |
| `EngineLoss.LossIsBounded` | backend/src/cryptoswarm/papertrade/engine.py:149-184 | for every interleaving of safe events (positive marks, and safe fills for the signals that open): a close other than by age never lowers the balance, so the trade loses at most its isolated margin plus its entry fee |
| `EngineLoss.NoHintIsSafe` | backend/src/cryptoswarm/papertrade/engine.py:116-120 | a signal without an embedded entry price is safe as soon as the fees cover its leverage, marks are positive and its take-profit is on the profit side of the fill |
| `EngineLoss.HintFreeRunIsSafe` | backend/src/cryptoswarm/papertrade/engine.py:113-184 | every run of positive marks in which the signals that open meet those conditions is a safe run, to which the loss bound applies; other signals may be anything |
| `EngineHalt.AgeCloseHaltsMarksIff` | backend/src/cryptoswarm/papertrade/engine.py:161-225 | in every run the mark handler is down, or in the rest of a close that takes it down, if and only if the trade log holds a close by age (`max_hold`) |
| `EngineHalt.HaltedMarksDoNothing` | backend/src/cryptoswarm/papertrade/engine.py:63-66 | after a close by age, however the run goes on, an arriving mark changes nothing at all, and the rest of the handler changes neither account nor trade log nor position updates |
| `EngineHalt.NoLevelIsEnforcedAgain` | backend/src/cryptoswarm/papertrade/engine.py:161-184 | after a close by age nothing is closed again but by a direction flip: no stop-loss, take-profit or liquidation |
| `EngineHalt.AgeCloseCrashes` | backend/src/cryptoswarm/papertrade/engine.py:206-225 | after a close by age the mark handler is down within two resumptions |
| `EngineHalt.AgeCloseHappens` | backend/src/cryptoswarm/papertrade/engine.py:161-225 | a concrete safe run that closes by age and ends with the mark handler down |
| `EngineHalt.SignalsHaltedIff` | backend/src/cryptoswarm/papertrade/engine.py:68-139 | in every run the signal handler is down, or in the rest of a close that takes it down, if and only if the log holds a direction flip or some signal passed every check and could not be filled |
| `EngineHalt.HaltEndsTrading` | backend/src/cryptoswarm/papertrade/engine.py:58-139 | once the signal handler is halted, by a flip or by a signal it could not fill, however the run goes on, no position is ever opened or flipped |
| `EngineHalt.FlipEndsTrading` | backend/src/cryptoswarm/papertrade/engine.py:58-81 | after a direction flip, however the run goes on, no position is ever opened |
| `EngineHalt.FlipHappens` | backend/src/cryptoswarm/papertrade/engine.py:73-81 | a concrete safe run that flips a long and ends with the signal handler down and nothing open |
| `EngineExamples.AgeLimitIsUnbounded` | backend/src/cryptoswarm/papertrade/engine.py:161-168 | for every multiple there is a safe run in which the age check, being first, closes a short beyond its liquidation price and loses more than that many margins |
| `PaperTradeEngine.Engine.ProcessSignal` | backend/src/cryptoswarm/papertrade/engine.py:68-137 | the method moves the object exactly as the state machine prescribes for an arriving signal, so all results about runs hold of the object |
| `PaperTradeEngine.Engine.ResumeSignal` | backend/src/cryptoswarm/papertrade/engine.py:79-147 | same for every continuation of the signal handler after an await |
| `PaperTradeEngine.Engine.ProcessMark` | backend/src/cryptoswarm/papertrade/engine.py:149-184 | same for an arriving mark: age, liquidation, stop-loss, take-profit in that order |
| `PaperTradeEngine.Engine.ResumeMark` | backend/src/cryptoswarm/papertrade/engine.py:206-226 | same for the rest of a close in the mark handler |
| `PaperTradeEngine.Engine.ResetBreakers` | backend/src/cryptoswarm/api/routes/circuit.py:25-29 | same for the operator resetting both breakers between steps |
| `PaperTradeEngine.Engine.ClosePosition` | backend/src/cryptoswarm/papertrade/engine.py:186-204 | takes the position out of the account, pays it out and publishes the closing trade with the reported net result |
| `PaperTradeEngine.Engine.UpdateBreakers` | backend/src/cryptoswarm/papertrade/engine.py:206-218 | feeds net result and current equity to the breakers and publishes a trip exactly when the daily breaker is tripped |
| `PaperTradeEngine.Engine.OpenIfAllowed` | backend/src/cryptoswarm/papertrade/engine.py:88-139 | breaker check, guards, fill price, then open or veto or crash, each with the whole new state |
| `PaperTradeEngine.Engine.OpenCount` | backend/src/cryptoswarm/papertrade/engine.py:99-103 | the count handed to the guard is the number of open positions and never exceeds the cap, and money is conserved, whatever calls came before |
| `TradeMath.RateAtLiquidation` | backend/src/cryptoswarm/papertrade/math.py:22-37 | at any price not past the liquidation price the margin covers the loss and the exit fee, for every leverage ≥ 1 with 1/leverage > mmr and taker·(1 + 1/leverage − mmr) ≤ mmr |
| `TradeMath.CreditIsQtyTimesRate` | backend/src/cryptoswarm/papertrade/math.py:10-73 | margin + PnL − exit fee equals quantity times a rate linear in the exit price; with positive quantity it is nonnegative if and only if the rate is |
| `TradeMath.EntryInside` | backend/src/cryptoswarm/papertrade/math.py:22-37 | an entry fill lies strictly inside its own liquidation price, on both sides |
| `TradeMath.DefaultFeesOk` | backend/src/cryptoswarm/papertrade/math.py:22-27 | the default rates meet the condition for every leverage from 1 to 5 |
| `PaperAccount.LedgerOfHistory` | backend/src/cryptoswarm/papertrade/account.py:43-68 | for every history of account operations: balance + locked margins + open entry fees = start + net results + funding + funding repaid by closes − what overwriting opens drop |
| `PaperAccount.AlwaysBookedOnceIff` | backend/src/cryptoswarm/papertrade/account.py:43-68 | for every history, overwriting opens included: the books are right after each operation if and only if every position it closes has no funding on it |
| `PaperAccount.ClosePaysOnceIff` | backend/src/cryptoswarm/papertrade/account.py:54-59 | a close pays out margin, gross PnL and exit fees exactly if and only if the position has no funding on it |
| `PaperAccount.FundingBookedOnceIff` | backend/src/cryptoswarm/papertrade/account.py:58-64 | funding is booked once over a history if and only if the funding totals of its closed positions cancel out, since `close` adds the total again |
| `PaperAccount.FundingBookedTwice` | backend/src/cryptoswarm/papertrade/account.py:58-64 | a concrete history in which one funding payment is charged twice |
| `PaperAccount.OpenLedger` | backend/src/cryptoswarm/papertrade/account.py:43-45 | an open leaves the ledger alone exactly up to the margin and fee of a position it overwrites |
| `PaperAccount.CloseLedger` | backend/src/cryptoswarm/papertrade/account.py:47-59 | a close moves the ledger by the reported net PnL plus the position's funding total |
| `PaperAccount.Account.Open` | backend/src/cryptoswarm/papertrade/account.py:43-45 | stores the position and deducts margin and fee |
| `PaperAccount.Account.Close` | backend/src/cryptoswarm/papertrade/account.py:47-59 | removes the position, pays out margin, gross PnL less exit fees and the funding total, and returns PnL net of both fees |
| `PaperAccount.Account.ApplyFunding` | backend/src/cryptoswarm/papertrade/account.py:61-64 | books funding on an open position and on the balance, nothing for other symbols |
| `PaperAccount.Account.UpdateMark` | backend/src/cryptoswarm/papertrade/account.py:66-68 | sets the mark of an open position, nothing for other symbols |
| `PaperAccount.Account.Equity` | backend/src/cryptoswarm/papertrade/account.py:39-41 | the loop over positions returns balance plus total unrealized PnL, independent of the order; locked margin is not part of it |
| `PaperAccount.EquityIsCloseValue` | backend/src/cryptoswarm/papertrade/account.py:23-41 | closing a marked position at its mark without fees leaves an account whose equity is the old one plus the freed margin (and the funding total) |
| `PaperAccount.UnmarkedAddsNothing` | backend/src/cryptoswarm/papertrade/account.py:23-41 | a position without a mark adds nothing to equity, and without positions equity is cash |
| `Breakers.DailyTrippedIff` | backend/src/cryptoswarm/risk/breakers.py:35-49 | for every history: tripped if and only if some nonempty prefix of the deltas since the last reset sums to minus the absolute threshold or below, hence latched until reset |
| `Breakers.DailyLastValue` | backend/src/cryptoswarm/risk/breakers.py:12-45 | for every history a tripped daily breaker holds the cumulative result of the latest update at or past the threshold, an untripped one zero |
| `Breakers.DrawdownTrippedIff` | backend/src/cryptoswarm/risk/breakers.py:60-73 | for every history and threshold: tripped if and only if some reading since the last reset lies the threshold fraction below the running peak |
| `Breakers.DrawdownTrippedIffPair` | backend/src/cryptoswarm/risk/breakers.py:60-73 | with a threshold of at most one: tripped if and only if some earlier positive equity E_i and later E_j satisfy E_i − E_j ≥ threshold·E_i |
| `Breakers.PairFormIff` | backend/src/cryptoswarm/risk/breakers.py:60-73 | the breaker is the pairwise statement on every history if and only if its threshold is at most one |
| `Breakers.PairFormFailsAboveOne` | backend/src/cryptoswarm/risk/breakers.py:63-66 | for every threshold above one, three readings on which they differ |
| `Breakers.DailyLossBreaker.UpdatePnl` | backend/src/cryptoswarm/risk/breakers.py:35-38 | the fields stay those of the whole history of updates and resets |
| `Breakers.DailyLossBreaker.IsTripped` | backend/src/cryptoswarm/risk/breakers.py:40-41 | the answer is the statement about prefix sums since the last reset |
| `Breakers.DailyLossBreaker.ClearState` | backend/src/cryptoswarm/risk/breakers.py:47-49 | forgets sum and trip, and only then |
| `Breakers.MaxDrawdownBreaker.UpdateEquity` | backend/src/cryptoswarm/risk/breakers.py:60-66 | the fields stay those of the whole history |
| `Breakers.MaxDrawdownBreaker.IsTripped` | backend/src/cryptoswarm/risk/breakers.py:68-69 | the answer is the statement about drops from the running peak since the last reset |
| `Breakers.MaxDrawdownBreaker.ClearState` | backend/src/cryptoswarm/risk/breakers.py:71-73 | forgets peak and trip |
| `Guards.Check` | backend/src/cryptoswarm/risk/guards.py:21-52 | a signal passes if and only if symbol, position count, size, leverage and both levels are all within bounds |
| `Guards.FirstFailureNamesVeto` | backend/src/cryptoswarm/risk/guards.py:24-50 | a signal that fails is vetoed in the name of the first guard it fails, in the order symbol, count, size, leverage, levels |
| `TradesTable.TableAgreesWithAccount` | backend/src/cryptoswarm/storage/subscriber.py:61-97 | after draining the log of any run with distinct correlation ids: rows are unique per id and exist exactly for executed trades; open rows and open positions correspond, field by field; fees and results add up in every row; and cash plus margins and entry fees of open positions is the start plus the sum of realized PnL, which for a flat account is its balance |
| `TradesTable.DrainAgrees` | backend/src/cryptoswarm/storage/subscriber.py:61-97 | the same agreement for any log that replays, whoever wrote it |
| `TradesTable.DrainFees` | backend/src/cryptoswarm/storage/postgres.py:47-52 | each row's fees are those of its execution message plus those of its close message, and its exit columns are the close message's |
| `TradesTable.RowsAddUp` | backend/src/cryptoswarm/storage/postgres.py:22-55 | in every row of every run with distinct ids fees are quantity × price × taker rate of each fill, and the realized result of a closed one is the gain between its two prices less those fees |
| `TradesTable.RowsShowPositions` | backend/src/cryptoswarm/storage/postgres.py:22-38 | a table whose open rows replay a book shows each of its positions with id, side, quantity, entry price, leverage, levels and fees, and nothing else as open |
| `TradesTable.PostgresWriter.InsertTradeOpen` | backend/src/cryptoswarm/storage/postgres.py:22-38 | appends an open row, or nothing when the id exists |
| `TradesTable.PostgresWriter.UpdateTradeClose` | backend/src/cryptoswarm/storage/postgres.py:40-55 | fills the exit columns and adds the exit fee in every row with the id, and in no other |
| `TradesTable.ConsumeTrades` | backend/src/cryptoswarm/storage/subscriber.py:61-97 | the consumer loop leaves the table that folding the log gives |
| `PortfolioMirror.MirrorShowsAllButHidden` | backend/src/cryptoswarm/agents/portfolio.py:53-62 | in every quiescent state of every interleaving the agent's picture is exactly the open positions (side, quantity, entry price) less the hidden symbols. A symbol becomes hidden when the mark handler finishes a close while the symbol is open again, and visible with the next mark it takes or with its announcement |
| `PortfolioMirror.MirrorShowsAccountIff` | backend/src/cryptoswarm/agents/portfolio.py:53-106 | so it shows the account if and only if no symbol is hidden, a condition decided by the states and events before each step; and if and only if none is, the cap check decides as the engine's count would for every cap |
| `PortfolioMirror.NoReopenNothingHidden` | backend/src/cryptoswarm/papertrade/engine.py:149-226 | if no signal arrives for a symbol in the middle of its close, the picture is right in every quiescent state |
| `PortfolioMirror.ClosingUpdateHides` | backend/src/cryptoswarm/papertrade/engine.py:206-226 | whenever the signal handler is idle and the mark handler finishes a close (after a reported trip or without one) whose symbol is open again, the engine is quiescent with the symbol open and not shown |
| `PortfolioMirror.MirrorCanMissAnOpenPosition` | backend/src/cryptoswarm/papertrade/engine.py:188-226 | six concrete events after which an open position is missing from the agent's picture |
| `PortfolioMirror.PortfolioAgent.OnPositionUpdate` | backend/src/cryptoswarm/agents/portfolio.py:53-62 | stores a snapshot or drops the symbol |
| `PortfolioMirror.PortfolioAgent.ListenPositions` | backend/src/cryptoswarm/agents/portfolio.py:70-75 | the listening loop ends with the fold of the whole log |
| `PortfolioMirror.PortfolioAgent.HardCap` | backend/src/cryptoswarm/agents/portfolio.py:87-106 | in quiescent states the agent rejects if and only if the engine's open count less the hidden symbols reaches the cap |
| `RollingContext.AutoRegressiveInference` | backend/src/cryptoswarm/ml/kronos_vendor/kronos.py:389-464 | for every prompt length ≥ 1, horizon, context size, network and sampler, the rolling buffers draw exactly the tokens of a reference that keeps the whole history and feeds its last min(len, max_context) tokens with the stamps of the same positions; the decoder gets the end of the full sequence |
| `RollingContext.EveryTokenIsDrawn` | backend/src/cryptoswarm/ml/kronos_vendor/kronos.py:420-446 | index by index: the coarse token at each position is what the network samples from the tokens of both kinds and the stamps at the absolute indices just before it, the fine token from the same windows and the coarse token |
| `RollingContext.GenerateTokens` | backend/src/cryptoswarm/ml/kronos_vendor/kronos.py:420-455 | the loop refines the reference from any correctly filled buffers |
| `RollingContext.GenerateStep` | backend/src/cryptoswarm/ml/kronos_vendor/kronos.py:421-455 | one step draws what the reference draws and keeps both buffers holding the end of the history |
| `RollingContext.RollLeft` | backend/src/cryptoswarm/ml/kronos_vendor/kronos.py:452-455 | rolling by one and overwriting the end drops the first element and appends the new one |
| `RollingContext.PushToken` | backend/src/cryptoswarm/ml/kronos_vendor/kronos.py:448-455 | filling before, rolling after the buffer is full: it then holds the end of the longer history |
| `RollingContext.InitBuffer` | backend/src/cryptoswarm/ml/kronos_vendor/kronos.py:407-414 | the filled buffer holds the end of the prompt, whether it fits or not |
| `RollingContext.StampWindow` | backend/src/cryptoswarm/ml/kronos_vendor/kronos.py:432-434 | position k of the stamp window carries the stamp of the same absolute index as position k of the token window |
| `RollingContext.ForecastRows` | backend/src/cryptoswarm/ml/kronos_vendor/kronos.py:508-517 | the final slice returns exactly pred_len rows if and only if 1 ≤ pred_len ≤ max_context, and then row k is the one decoded from generated token k |
| `Nucleus.TopPFilter` | backend/src/cryptoswarm/ml/kronos_vendor/kronos.py:353-370 | in place: exactly the shortest descending prefix whose mass exceeds top_p stays, every other logit gets the filter value, each at its own vocabulary index |
| `Nucleus.TopKFilter` | backend/src/cryptoswarm/ml/kronos_vendor/kronos.py:346-351 | in place: exactly the logits below the k-th largest are replaced |
| `Nucleus.ClampIs` | backend/src/cryptoswarm/ml/kronos_vendor/kronos.py:348 | k is the larger of top_k and the minimum, but no more than the vocabulary |
| `Nucleus.TopKTopPFilter` | backend/src/cryptoswarm/ml/kronos_vendor/kronos.py:331-370 | top-k excludes top-p; with neither active nothing is returned |
| `Nucleus.SortedMask` | backend/src/cryptoswarm/ml/kronos_vendor/kronos.py:357-365 | threshold, minimum and shift together remove place k if and only if the mass before it exceeds top_p and k − 1 is past the minimum; never the first |
| `Nucleus.Scatter` | backend/src/cryptoswarm/ml/kronos_vendor/kronos.py:368 | the mask moves through the sort permutation to the right vocabulary index |
| `Nucleus.NucleusMass` | backend/src/cryptoswarm/ml/kronos_vendor/kronos.py:357-365 | with the default minimum the kept tokens are never none, their mass exceeds top_p, and without the last of them it does not |
| `Nucleus.NucleusIsSmallest` | backend/src/cryptoswarm/ml/kronos_vendor/kronos.py:357-365 | no set of tokens with mass above top_p is smaller than the one kept |
| `Nucleus.KeptAreLargest` | backend/src/cryptoswarm/ml/kronos_vendor/kronos.py:354-370 | no kept token has a smaller logit than a removed one |
| `Nucleus.KeepsPrefixEverywhere` | backend/src/cryptoswarm/ml/kronos_vendor/kronos.py:368-369 | every vocabulary index is either kept unchanged or filtered |
| `Nucleus.NucleusIsUnique` | backend/src/cryptoswarm/ml/kronos_vendor/kronos.py:357-365 | there is one such prefix, so the in-place result is determined |
| `Nucleus.MinimumKeepsOneMore` | backend/src/cryptoswarm/ml/kronos_vendor/kronos.py:359-370 | in the filtered logits a minimum of m > 1 leaves the first m + 1 places untouched, and when the nucleus is no larger than m everything behind them is filtered |
| `Nucleus.KeptAsAskedIff` | backend/src/cryptoswarm/ml/kronos_vendor/kronos.py:359-365 | the code keeps the larger of nucleus and minimum, clipped to the vocabulary, if and only if no minimum above one is asked for, the nucleus exceeds it, or the vocabulary does not |
| `Nucleus.TopKKeepsTies` | backend/src/cryptoswarm/ml/kronos_vendor/kronos.py:348-349 | top-k keeps the first k and, of the rest, exactly the ties with the k-th |
| `BitCodec.DecodeOfEncode` | backend/src/cryptoswarm/ml/kronos_vendor/module.py:234-243 | decoding an encoded bit vector gives it back, for every length |
| `BitCodec.EncodeOfDecode` | backend/src/cryptoswarm/ml/kronos_vendor/kronos.py:129-134 | encoding a decoded integer gives it modulo 2^n, so the integer itself on [0, 2^n) |
| `BitCodec.SignRoundTrip` | backend/src/cryptoswarm/ml/kronos_vendor/kronos.py:115-140 | a vector of ±scale survives encoding and decoding with its scale |
| `BitCodec.BitsOfIndex` | backend/src/cryptoswarm/ml/kronos_vendor/module.py:234-243 | bit i of an index is set exactly when component i is not negative, and nothing beyond the components is set |
| `BitCodec.HalvesRoundTripIff` | backend/src/cryptoswarm/ml/kronos_vendor/module.py:245-251 | splitting at s1_bits, encoding both halves and decoding with the half masks gives every vector back if and only if s1_bits = s2_bits |
| `BitCodec.FullIndexFromHalves` | backend/src/cryptoswarm/ml/kronos_vendor/module.py:248-253 | the index of the whole vector is pre + 2^s1_bits · post |
| `BitCodec.CodesRoundTrip` | backend/src/cryptoswarm/ml/kronos_vendor/module.py:163-185 | indexes_to_codes inverts codes_to_indexes on codes over {−1, 1} |
| `BitCodec.IndexNonnegative` | backend/src/cryptoswarm/ml/kronos_vendor/module.py:163-169 | the index of d codes lies in [0, 2^d) |
| `BitCodec.IndexesRoundTrip` | backend/src/cryptoswarm/ml/kronos_vendor/module.py:163-185 | codes_to_indexes inverts indexes_to_codes modulo 2^d, so on [0, 2^d) exactly |
| `BitCodec.GroupCodesRoundTrip` | backend/src/cryptoswarm/ml/kronos_vendor/module.py:171-194 | the group pair: decoding group indices gives the code back |
| `BitCodec.GroupIndexesRoundTrip` | backend/src/cryptoswarm/ml/kronos_vendor/module.py:171-194 | the group pair in the other direction, on indices in [0, 2^group_size) |
| `BitCodec.GroupIndexesAreDigits` | backend/src/cryptoswarm/ml/kronos_vendor/module.py:163-177 | the group indices are the base-2^group_size digits of the full index, most significant first |
| `Director.MapsAlwaysAgree` | backend/src/cryptoswarm/agents/director.py:102-153 | at every await point of every run the pending and event maps have the same keys, and an event is set if and only if all five results are in |
| `Director.PendingIff` | backend/src/cryptoswarm/agents/director.py:133-155 | at every await point of every run a request has map entries if and only if it is being published or waited for, or its publication failed |
| `Director.LateResultsIgnoredIff` | backend/src/cryptoswarm/agents/director.py:117-153 | results for a request that is not awaited, late or foreign, change nothing if and only if the publication of that request has not failed |
| `Director.LateResultIsKept` | backend/src/cryptoswarm/agents/director.py:133-139 | a concrete run: publication fails, the request is over, and a late result is still collected for it |
| `Director.ResultsStayWithTheirRequest` | backend/src/cryptoswarm/agents/director.py:117-123 | a result changes no map entry but that of its own request, where it takes the place of its own kind, and nothing at all when that request has none |
| `Director.EverySignalIsBacked` | backend/src/cryptoswarm/agents/director.py:133-227 | in every run every signal comes from a request whose five results arrived under its own id, with portfolio approval and a decision other than hold; at most one signal per request |
| `Director.AsksIffApproved` | backend/src/cryptoswarm/agents/director.py:214-227 | in every run an analysis with all results asks the model if and only if its portfolio result approves, and is bound to hold otherwise |
| `Director.PublishesIffCooledDown` | backend/src/cryptoswarm/agents/director.py:262-299 | in every run an analysis with a decision publishes exactly one signal, with its own id, symbol, results and decision, if and only if the decision is not to hold and the symbol has had no signal for 300 s; either way it is over |
| `Director.SignalHappens` | backend/src/cryptoswarm/agents/director.py:102-299 | for every id, symbol and decision to buy there is a run that publishes the signal: the five results arrive, the portfolio result approving, the event is set, the model answers, and the cooldown lets it pass |
| `Director.SizesFollowTheAdjustment` | backend/src/cryptoswarm/agents/director.py:229-280 | in every run a signal asks for the balance times the decided fraction, raised by a fifth on a confident scale-up, lowered by a fifth on a scale-down of its own ML result, and limited by the cap |
| `Director.CooldownHolds` | backend/src/cryptoswarm/agents/director.py:266-276 | in every run, over all interleavings of analyses, signals of one symbol are at least 300 s apart and any span t holds at most floor(t/300) + 1 of them |
| `Director.SignalsWithinLimits` | backend/src/cryptoswarm/agents/director.py:229-283 | no signal asks for more than the configured fraction of the starting balance, scaled up or not, and each uses the configured leverage |
| `Director.SignalsFitTheirDecision` | backend/src/cryptoswarm/agents/director.py:229-298 | every signal of every run carries id and symbol of its request and the decided side; from the close in its own quant result, the stop-loss costs exactly the decided fraction and the take-profit earns exactly the decided fraction |
| `Director.DirectorAgent.BeginAnalysis` | backend/src/cryptoswarm/agents/director.py:133-137 | registers the request in both maps |
| `Director.DirectorAgent.StartWaiting` | backend/src/cryptoswarm/agents/director.py:139-145 | moves the analysis to its wait once the request is published |
| `Director.DirectorAgent.CollectResult` | backend/src/cryptoswarm/agents/director.py:102-123 | stores a result of a known request and sets its event when complete |
| `Director.DirectorAgent.TakeResults` | backend/src/cryptoswarm/agents/director.py:146-161 | takes the results, removes both map entries and goes on with five results only |
| `Director.DirectorAgent.FinishWait` | backend/src/cryptoswarm/agents/director.py:141-163 | ends the wait on completion and on timeout alike |
| `Director.DirectorAgent.Analyse` | backend/src/cryptoswarm/agents/director.py:214-227 | asks the model if and only if the portfolio agent approves, and holds otherwise |
| `Director.DirectorAgent.TakeAnswer` | backend/src/cryptoswarm/agents/director.py:222-227 | keeps the five results with the answer |
| `Director.DirectorAgent.Abort` | backend/src/cryptoswarm/agents/director.py:133-155 | an exception cleans up behind a wait but not behind a publication |
| `Director.DirectorAgent.EmitSignal` | backend/src/cryptoswarm/agents/director.py:262-299 | hold, cooldown guard, recording and publication in one stretch |
| `Backtest.RunBacktest` | backend/scripts/backtest_5_sltp.py:140-196 | one result per bar with a long or short signal but the last, in order: long where the long column says so, else short; each the outcome of the earliest later bar that touches a level, the stop-loss winning ties, or of the last close |
| `Backtest.ScanForward` | backend/scripts/backtest_5_sltp.py:171-192 | the inner loop with its breaks finds that outcome |
| `Backtest.OutcomeIsUnique` | backend/scripts/backtest_5_sltp.py:171-192 | the outcome is determined: the specification leaves the loop no choice |
| `Backtest.LevelsAreReturns` | backend/scripts/backtest_5_sltp.py:163-188 | a bar stops a trade exactly when the worst return it offers in the direction of the trade is at or below −sl, and takes its profit exactly when the best one reaches tp |
| `Backtest.OpenTradeReturns` | backend/scripts/backtest_5_sltp.py:190-193 | a trade that no bar ends has the return of the last close in its own direction |
| `Backtest.OutcomeWithinLevels` | backend/scripts/backtest_5_sltp.py:163-195 | with 0 < low ≤ close ≤ high every PnL lies in [−sl, tp], trades still open at the end included |
| `Backtest.LeveragedIs` | backend/scripts/backtest_5_sltp.py:203-209 | a result is scaled by the leverage unless that loses the stake or more, which counts as losing the stake |
| `Backtest.CurveStep` | backend/scripts/backtest_5_sltp.py:216-221 | the curve starts at one and each trade moves it by its result times the equity before |
| `Backtest.PositiveIffNoLiquidation` | backend/scripts/backtest_5_sltp.py:216-221 | equity is never negative, and positive after k trades if and only if none of them was liquidated |
| `Backtest.LiquidationIsFinal` | backend/scripts/backtest_5_sltp.py:203-221 | from the first liquidated trade on, equity is zero |
| `Backtest.BacktestStaysSolvent` | backend/scripts/backtest_5_sltp.py:154-221 | with sl·leverage < 1 the leveraged equity of every backtest on sane bars stays positive |
| `Backtest.TraceEquity` | backend/scripts/backtest_5_sltp.py:216-226 | the one-pass loop returns the maximum of (E_i − E_j)/E_i over all pairs i ≤ j, in [0, 1] |
| `Backtest.MaxDrawdownIsUnique` | backend/scripts/backtest_5_sltp.py:222-226 | that maximum is one number |
| `Backtest.ApplyLeverage` | backend/scripts/backtest_5_sltp.py:203-214 | clamped leverage, wins and sum in one loop |
| `Backtest.ComputeMetrics` | backend/scripts/backtest_5_sltp.py:199-226 | drawdown, win rate, mean and count of the leveraged results; zeros for none |
| `LoginLimiter.SpanBound` | go-backend/internal/api/ratelimit.go:37-51 | in every history, collections included, any span as long as the interval holds at most 2·max − 1 allowed attempts of a key (1 when max < 1) |
| `LoginLimiter.SpanBoundIsTight` | go-backend/internal/api/ratelimit.go:37-51 | the bound is reached, for every max ≥ 1 and every positive interval |
| `LoginLimiter.RefusedOnlyWhenFull` | go-backend/internal/api/ratelimit.go:37-51 | an attempt is refused only when at least max attempts of the key have been allowed in a span that began no more than an interval ago |
| `LoginLimiter.GcIsInvisible` | go-backend/internal/api/ratelimit.go:54-67 | with collections anywhere in the history every attempt is answered as without |
| `LoginLimiter.Limiter.Allow` | go-backend/internal/api/ratelimit.go:37-51 | the method answers as the history of attempts and collections determines |
| `LoginLimiter.Limiter.CollectExpired` | go-backend/internal/api/ratelimit.go:58-65 | the loop over the table deletes exactly the expired windows |
| `PromptStore.StoreRefinesMap` | backend/src/cryptoswarm/learning/prompt_store.py:18-45 | for every history of gets and saves, failing ones included: versions per agent are 1..n in order with only the newest active, and table and cache agree with the map of last successful saves |
| `PromptStore.GetReturnsLastSaved` | backend/src/cryptoswarm/learning/prompt_store.py:18-29 | a get returns the last successfully saved nonempty prompt, else the default |
| `PromptStore.GetIsRemembered` | backend/src/cryptoswarm/learning/prompt_store.py:18-29 | a get that could read the table remembers: the next one returns the saved prompt even when the database fails; one that could not read leaves the next to look again |
| `PromptStore.FreshUnlessOvertaken` | backend/src/cryptoswarm/learning/prompt_store.py:18-45 | for every interleaving in which no get is overtaken by a commit between its query and its store, every cache entry is the newest prompt except while the replacing save still has to invalidate |
| `PromptStore.CacheIsNewestIff` | backend/src/cryptoswarm/learning/prompt_store.py:18-45 | for every interleaving: a cache entry is the text of the version its get had read; with no invalidation pending that version is the newest if and only if no newer one had been committed when the get stored it, and an overtaken entry is out of date in any case |
| `PromptStore.OvertakenGetStaysStale` | backend/src/cryptoswarm/learning/prompt_store.py:23-40 | six concrete steps after which the cache holds an old prompt with nothing left to drop it |
| `PromptStore.PostgresPrompts.GetAgentPrompt` | backend/src/cryptoswarm/storage/postgres.py:183-194 | the query returns the active prompt of highest version |
| `PromptStore.PostgresPrompts.SaveAgentPrompt` | backend/src/cryptoswarm/storage/postgres.py:196-220 | deactivates the agent's rows and appends the next version as active |
| `PromptStore.CachedPrompts.FetchPrompt` | backend/src/cryptoswarm/learning/prompt_store.py:18-29 | returns the last successfully saved nonempty prompt if cached or readable, else the default |
| `PromptStore.CachedPrompts.SavePrompt` | backend/src/cryptoswarm/learning/prompt_store.py:31-41 | raises exactly on failure, and otherwise commits and invalidates |
| `PromptStore.CachedPrompts.DropEntry` | backend/src/cryptoswarm/learning/prompt_store.py:43-45 | drops one cache entry |

## Left out

- Float rounding, NaN and infinities: all money, prices, logits and probabilities are exact reals. The rounding of
  signal size and levels in the director is therefore not modelled either.
- EngineLoss.LossIsBounded: assumes what isolated margin itself needs, stated as `SafeRun`: positive marks and, for
  the signals that open a position, a nonnegative size, fees covered by the maintenance margin, a take-profit not past
  the liquidation price and a last mark that has not reached it. `EngineLoss.HintFreeRunIsSafe` derives this for runs whose signals embed no entry price.
- TradesTable.TableAgreesWithAccount: the log is drained in order and no database write fails.
- PortfolioMirror.MirrorShowsAllButHidden: says nothing while a handler is suspended or crashed.
- PortfolioMirror.NoReopenNothingHidden: a sufficient condition on arriving signals; the exact one is the hidden set of
  `PortfolioMirror.MirrorShowsAccountIff`.
- PromptStore.CacheIsNewestIff: a save that commits but whose acknowledgement is lost, so that it raises without invalidating,
  is not modelled.
- Backtest.RunBacktest: a trade from an entry of zero that no later bar ends is excluded; numpy makes its result an
  infinity or not a number. Entries of zero that some bar ends are included.
- EngineHalt.HaltedMarksDoNothing: `main.py` lets the exception of a crashed handler end the whole process; the model is
  of the engine alone and lets the other handler go on for any number of steps, none included.
- RollingContext.AutoRegressiveInference: one row of the batch; network, sampler and tokenizer are arbitrary functions of window,
  stamps and step.
- Nucleus.TopPFilter: one row; sort and softmax are given as a descending permutation and nonincreasing weights that sum to one.
- PaperTradeEngine.Engine.ProcessSignal: positions are values in the map, so the aliasing of a position object held across an
  await is not modelled; nothing updates such an object once it is out of the map.
- Failures of publishing itself, and messages lost or reordered between publisher and subscriber.
- Log lines, veto texts, message timestamps and the `closed_ts` and `opened_ts` columns.
- Orphan closing at startup, `rl_tuples`, circuit event rows, news and training tables.
- The director's prompt texts, its prompt reload every ten cycles and its decision log. The confidence threshold that
  the repository's README names is not checked by its code, so it is not claimed here.
- The Sharpe ratio, plots, and the other backtest scripts, which repeat the scan.
- Quantizer losses, network layers, training and indicators.
- `split_token`, whose bit layout differs from the one the codec results are about.
- Passwords, sessions, HTTP routes, WebSocket hub, LLM providers, scraper and dashboards.
