# Verified model of an intraday trading backend

This project models the stateful core of an opening-range-breakout trading backend for the
Indian stock market and proves what that core promises over all runs.

| file | what it models |
|---|---|
| `market_clock.dfy` | trading clock, 09:15-anchored candle grid |
| `candles.dfy`, `candle_builder.dfy` | ticks to OHLCV candles of several nested intervals; the theory of one symbol's bars, then the builder object |
| `signal_engine.dfy`, `market_engine.dfy`, `session.dfy` | the per-symbol breakout engine, the hub that feeds it, and one trading session end to end |
| `order_protocol.dfy` | check, insert, submit: concurrent entry orders over one store |
| `order_state_machine.dfy` | order lifecycle and audit log |
| `position_book.dfy`, `reconciliation.dfy` | position book, symbol index, exits; two reconcilers against the broker |
| `paper_ledger.dfy`, `paper_writers.dfy` | paper account: pricing, sizing, gate and what one writer does to the ledger; then any number of interleaved writers, and exactly when they conserve money |
| `capital_allocator.dfy`, `portfolio_risk.dfy` | dividing capital; the portfolio gate and its caps |
| `rate_limit.dfy` | sliding-window request limiter |
| `series.dfy`, `attribution.dfy` | drawdown, daily and equity series; attribution of profit |
| `rounding.dfy`, `sums.dfy`, `stable_sort.dfy`, `wrappers.dfy` | shared mathematics and datatypes |

Objects that the program updates in place are classes here (`CandleBuilder`, `SignalEngine`,
`SymbolRecord`, `LiveMarketEngine`, `LiveOrder`, `OrderStateMachine`, `LivePosition`,
`LivePositionManager`, `BrokerReconciliationService`, `PaperAccount`, `CapitalAllocator`,
`RateLimitMiddleware`); each method's contract gives the new state as a function of the old
one, and the lemmas are about runs of those functions. Concurrent order placement is a state
machine whose steps are what a call does between two suspension points.

## Reading guide

Money is an integer in units of 1/10000 rupee (paper account, P&L series) or in paise
(portfolio), with explicit round-half-to-even steps where the program rounds; observed prices
are real numbers. Instants are microseconds since the epoch. A `Symbol` is the identity of an
upper-cased name. Ids drawn at random (orders, positions) are natural numbers.

Where the code and its own comments differ, the model follows the code:

- The order document describes `filled_quantity` as at most `quantity`; the transition never
  compares the two (`FilledWithinQuantity`, `OverfillIsAccepted`).
- The paper sizing docstring promises at least one share for any positive price; the code
  sizes zero when the budget is below one share (`SizedQuantityIsTheLargestFit`).
- The duplicate guard lets a rejected signal through for a retry; the unique index stops every
  such retry (`RejectedIsStoppedByTheInsert`, `SpentForever`, `InsertRefusesIff`).
- Exit orders bypass the risk gate so that a book can always be flattened; the unique index
  refuses one exactly when its signal id and broker were stored before (`NewOrderIsStoredIff`),
  which they are for every exit under its entry's signal id (`ExitUnderTheEntryKeyIsRefused`).
- The signal index is sparse so that orders without a signal id stay out of it; it is compound,
  every order names a broker, and so a broker can hold one such order only
  (`SecondUnsignedOrderIsRefused`).
- Exit slippage is described as always adverse; after rounding to four decimals it can favour
  the trader at prices below ten paise (`SlippageIsAdverseIff`, `TinyPriceIsFavoured`).
- The limiter's `retry_after` hint is always too early (`RetryHintIsTooEarly`), and a limit of
  zero or less fails with an index error instead of refusing (`NonPositiveLimitAlwaysFails`).
- Paper money is conserved exactly when the stored account has missed no entry and no trade row
  (`LedgerIsConservedIff`). Three things make it miss one: a second close, which the close path
  does not check (`SecondCloseCreditsAgain`); a daily reset, pause, resume or mark to market,
  which read and write the whole account outside the lock (`LateWriteConservesIff`,
  `LateWriteLosesAnEntry`); and an account write that fails after the position or the trade row
  is stored (`FailedRowIsForever`).
- The per-strategy and per-sector caps read stored rows that a repeated signal overwrites. Rows
  and running exposures agree exactly as long as no row that carries capital is overwritten
  (`ProcessAgreesIff`); a cap holds exactly as long as the overwritten capital fits beside the
  stored capital (`GroupCapHoldsIff`), which a repeated signal can break
  (`RepeatedSignalPassesTheStrategyCap`).
- The gate's per-trade rule repeats the allocator's cap; it can fire only when rounding carries
  the cap past itself (`PerTradeRuleFiresIff`).
- Reconciliation ignores the sign of a quantity (`CleanIsInStepIff`) and repairs each of
  several positions on one symbol to the whole broker quantity (`RepairedTotalIsRightIff`).

## Model

| member | source | states |
|---|---|---|
| MarketClock.FloorIsLastGridPoint | app/live/candle_builder.py:364-388 | flooring an instant gives the last point of one 09:15-anchored grid not after it, on both sides of the open |
| MarketClock.FloorLaws | app/live/candle_builder.py:364-388 | the floor is idempotent, monotone, and slots of a dividing step nest inside slots of the coarser one |
| MarketClock.StepSeconds | app/live/candle_builder.py:48-54 | every interval divides a day |
| MarketClock.MarketHoursAre | app/live/candle_builder.py:391-397 | an instant is in market hours exactly when it lies from 09:15 to before 15:30 IST of a weekday, day and hours spelled out as numbers |
| Candles.AdvanceEmits | app/live/candle_builder.py:222-247 | what one quote closes and opens for one interval is the bar list growing by at most one bar, earlier bars never changing |
| Candles.SpansDisjoint | app/live/candle_builder.py:230-247 | for quotes in any order, the spans of one interval are grid-aligned, disjoint and strictly increasing |
| Candles.BarsAreSane | app/live/candle_builder.py:109-116 | for quotes in any order, the open and the close of every bar lie between its low and its high |
| Candles.VolumeConserved | app/live/candle_builder.py:109-116 | closed plus in-progress volume equals accepted quote volume, at every interval, any order |
| Candles.IntervalsCohere | app/live/candle_builder.py:222-247 | for quotes in any order, fine bars lie inside coarse ones and every coarse bar is the OHLCV merge of the fine bars in its span |
| Candles.InOrderGroups | app/live/candle_builder.py:222-278 | for in-order quotes the bars are exactly the groups of same-slot quotes, with first, maximum, minimum, last and sum, and no slot is missing |
| CandleBuilders.BuilderTracks | app/live/candle_builder.py:176-256 | over any run of ticks of any symbols, what the builder emitted and holds for a symbol and interval is the bar list of that symbol's accepted quotes |
| CandleBuilders.FlushEmitsEachOnce | app/live/candle_builder.py:260-278 | a flush of one symbol emits each of its in-progress bars exactly once and nothing else |
| CandleBuilders.EmittedPlusFlushed | app/live/candle_builder.py:258-285 | after any run of ticks, the candles emitted for a symbol and interval plus those a flush of all symbols adds are exactly the bars of its accepted quotes |
| CandleBuilders.FlushEmpties | app/live/candle_builder.py:260-278 | a flush leaves every bucket of the symbol empty |
| CandleBuilders.CandleBuilder.OnTick | app/live/candle_builder.py:176-256 | the new buckets, counters and closed candles of one tick, drops included |
| CandleBuilders.AdmittedIff | app/live/candle_builder.py:190-212 | a tick is accepted exactly when its time is aware, its price positive, its volume not negative, its time at most 60 s ahead of the clock and, if asked, in market hours; the quote then carries the tick's own time, price and volume |
| CandleBuilders.ClockLeavesNoTrace | app/live/candle_builder.py:203-222 | a tick accepted at one clock reading is accepted at every later one, as the same quote |
| CandleBuilders.QuotesAreTheTicks | app/live/candle_builder.py:190-222 | the quotes of a symbol in a feed are its acceptable ticks with their own times, prices and volumes, in order |
| CandleBuilders.CountersCount | app/live/candle_builder.py:190-256 | over any run the counters are the numbers of acceptable ticks, of all others and of emitted candles |
| CandleBuilders.CandleBuilder.ServeIntervals | app/live/candle_builder.py:217-249 | the interval loop closes elapsed buckets and folds the quote into the current ones |
| CandleBuilders.CandleBuilder.ServeInterval | app/live/candle_builder.py:222-247 | one interval's bucket and closed candle |
| CandleBuilders.CandleBuilder.RegisterSymbol | app/live/candle_builder.py:161-166 | registration adds empty buckets once and keeps existing ones |
| CandleBuilders.CandleBuilder.UnregisterSymbol | app/live/candle_builder.py:168-172 | unregistering forgets the symbol and nothing else |
| CandleBuilders.CandleBuilder.FlushSymbol | app/live/candle_builder.py:260-278 | the candles forced out of one symbol and its emptied row |
| CandleBuilders.CandleBuilder.FlushAll | app/live/candle_builder.py:280-285 | the candles forced out of every registered symbol, in the given order |
| SignalEngines.OneShotPerSymbol | app/live/signal_engine.py:246-342 | under any interleaving of candles, additions, locks and deactivations of one activation, a symbol signals at most once and never after an external lock |
| SignalEngines.RunRemembers | app/live/signal_engine.py:246-342 | a captured range, a skip and a lock are never undone within an activation |
| SignalEngines.RangesAreCaptured | app/live/signal_engine.py:275-291 | a symbol has a range only if an opening candle of its own was fed earlier, and the range is that candle's |
| SignalEngines.SignalsAreJustified | app/live/signal_engine.py:293-324 | every signal has an earlier opening candle, 09:15 to 09:30, whose width in percent of its low is within the limit and is the one reported, and a candle starting from 09:30 on within the entry window and closing strictly outside it |
| SignalEngines.SignalsStraddle | app/live/signal_engine.py:346-385 | under any interleaving of events with sane candles, every emitted BUY has its stop at most the range high and its entry above it; a SELL mirrors it |
| SignalEngines.RunIsBatch | app/live/signal_engine.py:246-328 | feeding closed candles one by one emits exactly the signal of a batch definition over the candle list |
| SignalEngines.SymbolRecord.Consume | app/live/signal_engine.py:271-324 | the in-place state change and signal of one candle |
| SignalEngines.SignalEngine.Activate | app/live/signal_engine.py:168-192 | activation replaces all symbol states by fresh ones for the shortlist |
| SignalEngines.SignalEngine.Deactivate | app/live/signal_engine.py:194-199 | deactivation only clears the active flag |
| SignalEngines.SignalEngine.AddCandidate | app/live/signal_engine.py:201-218 | a new candidate is tracked only while active and only if not tracked yet |
| SignalEngines.SignalEngine.LockSymbol | app/live/signal_engine.py:332-342 | locks one tracked symbol and nothing else |
| SignalEngines.SignalEngine.OnCandle | app/live/signal_engine.py:246-328 | the new engine state and signal of one closed candle |
| SignalEngines.EngineCountersCount | app/live/signal_engine.py:246-328 | over any run of events the counters are the numbers of candles heard and of signals emitted |
| MarketEngines.RestartIsBatch | app/live/market_engine.py:120-217 | for any interleaving of ticks of any symbols, sane or not and in any order, the signals of a symbol with a fresh record are the batch signal over the bars its own accepted quotes closed since the start, whatever bucket an earlier session left in progress |
| MarketEngines.PipelineIsBatch | app/live/market_engine.py:182-217 | from empty buckets the batch is over all the closed bars of its accepted quotes |
| MarketEngines.FeedSignalsStraddle | app/live/market_engine.py:182-217 | late ticks and a kept bucket included, every signal the hub emits for a symbol with a fresh record has stop and entry on opposite sides of its range |
| MarketEngines.ForwardInactive | app/live/market_engine.py:144-158 | a deactivated signal engine turns no forwarded candle into a signal |
| MarketEngines.LiveMarketEngine.Start | app/live/market_engine.py:120-142 | registers and activates exactly the shortlist |
| MarketEngines.StartIsReady | app/live/market_engine.py:120-142 | after a start every shortlisted symbol has an untouched record of its last entry and is in the state the session and restart theorems ask for |
| MarketEngines.LiveMarketEngine.Stop | app/live/market_engine.py:144-158 | flushes every bucket and never produces a signal |
| MarketEngines.LiveMarketEngine.AddSymbol | app/live/market_engine.py:165-172 | watches, registers and tracks a new symbol, or changes nothing |
| MarketEngines.LiveMarketEngine.RemoveSymbol | app/live/market_engine.py:174-178 | stops watching a symbol and forgets its buckets |
| MarketEngines.LiveMarketEngine.FeedTick | app/live/market_engine.py:182-198 | the whole new state and signals of one tick: dropped when unwatched, else built and forwarded |
| MarketEngines.HubCountersCount | app/live/market_engine.py:182-217 | over any run the hub's counters are the numbers of watched ticks, of unwatched ticks and of closed candles |
| MarketEngines.LiveMarketEngine.OnClosedCandle | app/live/market_engine.py:213-217 | counts and forwards one closed candle |
| MarketEngines.LiveMarketEngine.ForwardAll | app/live/candle_builder.py:251-256 | closed candles reach the signal engine one by one in order |
| Sessions.SessionRange | app/live/signal_engine.py:275-291 | in a session the first closed bar is the opening candle exactly when a quote came before 09:30, with the maximum and minimum of those quotes |
| Sessions.SessionBatch | app/live/signal_engine.py:293-324 | on a session's closed bars the batch signal is that of a rule on the raw quotes: range from the highest and lowest price before 09:30, then the first later slot of the entry window whose last price is strictly outside, once a later quote closes it |
| Sessions.SessionEndToEnd | app/live/market_engine.py:182-217 | when the acceptable ticks of a watched symbol come in order in one session, the hub emits exactly the signal of that rule on the raw list of their own times, prices and volumes, whenever they arrive |
| Sessions.SessionFromStart | app/live/market_engine.py:120-217 | the same for any shortlist from the start of the hub on: each symbol with empty buckets gets the signal of its last shortlist entry |
| OrderStates.OrderStateMachine.Transition | app/live_execution/order_state_machine.py:112-202 | the moved order, audit row and stored copy; a refused transition changes nothing; a failing store is reported after the move in memory |
| OrderStates.AttemptMovesIff | app/live_execution/order_state_machine.py:43-69 | in every reachable state an attempt moves the order exactly when it goes to a later stage or from one partial fill to the next, except from a partial fill to REJECTED |
| OrderStates.PartlyFilledIsNotRejected | app/live_execution/order_state_machine.py:60-64 | along every run an order never goes back a stage, and once partly filled it is never rejected |
| OrderStates.AuditTrail | app/live_execution/order_state_machine.py:139-193 | over every run the log is a connected allowed path from PENDING, every field of the order can be replayed from it, and the stored log is a prefix of the one in memory |
| OrderStates.StoredIsTheLastWritten | app/live_execution/order_state_machine.py:185-202 | in every run the stored copy is the order as it was right after the last accepted attempt that was to be stored and met a working store |
| OrderStates.RunsAreMonotone | app/live_execution/order_state_machine.py:157-163 | terminal statuses absorb, fills never fall, a broker id with text never changes, the log only grows |
| OrderStates.RejectionReasonIffRejected | app/live_execution/order_state_machine.py:164-167 | a rejection reason is present, with text, exactly on REJECTED orders |
| OrderStates.FilledWithinQuantity | app/models/live_order.py:128-131 | the fill stays within the quantity exactly when every accepted report does |
| OrderStates.OverfillIsAccepted | app/live_execution/order_state_machine.py:162-163 | whatever quantity was ordered, a report of one more is recorded |
| OrderStates.RunIsShort | app/live_execution/order_state_machine.py:43-69 | with strictly rising partial fills up to the quantity a run makes at most quantity + 2 transitions |
| OrderStates.EqualFillsNeverEnd | app/live_execution/order_state_machine.py:60-64 | repeated equal partial fills are accepted without bound |
| OrderProtocol.AtMostOnce | app/live_execution/execution_engine.py:251-429 | under every interleaving, with or without in-process locks, a key has at most one stored order and at most one broker call, which follows its insert; an accepted call reached the broker |
| OrderProtocol.RunIsSafe | app/live_execution/execution_engine.py:251-429 | the invariant behind it holds after every step of every call, including failures at any suspension point |
| OrderProtocol.MutualExclusion | app/live_execution/execution_engine.py:438-445 | with the locks, two calls of one engine for one key are never both past the lock |
| OrderProtocol.SpentForever | app/repositories/live_order_repository.py:33-54 | once a key has a row and no unsent owner, the broker is never called for it again |
| OrderProtocol.RejectedIsStoppedByTheInsert | app/live_execution/failsafe.py:212-239 | a REJECTED order passes the duplicate guard and the insert then refuses any new id |
| OrderProtocol.FailedLoginIsNeverSent | app/live_execution/execution_engine.py:423-429 | an order whose login failed is never sent, then or later, by any call |
| OrderProtocol.GuardHoldsUntilInsert | app/live_execution/execution_engine.py:261-373 | on one engine with its locks, what the duplicate guard saw still holds at the insert, in every reachable state |
| OrderProtocol.InsertRefusesIff | app/repositories/live_order_repository.py:33-54 | in such a run the insert ends as a duplicate exactly when the drawn order id is taken or a rejected order holds the signal |
| OrderProtocol.OutcomesAreStored | app/live_execution/execution_engine.py:375-414 | without other writers an accepted call's row is OPEN and a refused call's row is REJECTED, in every state |
| OrderProtocol.StepBringsIff | app/live_execution/execution_engine.py:251-429 | in any state a call comes to stand at a phase or an outcome exactly by the one step stated for it: what the outside did, what the store held and where the call stood |
| OrderProtocol.EveryPhaseHasItsCause | app/live_execution/execution_engine.py:251-429 | in every reachable state each call was brought to where it stands by such a step earlier in the run |
| OrderProtocol.AcceptanceHasItsAnswer | app/live_execution/execution_engine.py:383-396 | a call that is accepted, or about to be recorded so, met an answer taking its order on after it was sent |
| OrderProtocol.RefusalHasItsAnswer | app/live_execution/execution_engine.py:356-381 | a call that is refused met an answer turning its sent order down, or a failed login with its order stored |
| OrderProtocol.AnswerSettles | app/live_execution/execution_engine.py:350-396 | once the broker took an order on, its call can only end accepted or by an exception; once it was turned down or the login failed, only refused or by one |
| OrderProtocol.AnswerIsRecorded | app/live_execution/execution_engine.py:356-396 | a recorded answer makes the row OPEN and the outcome accepted, or the row REJECTED and the outcome refused, changes nothing else and frees the lock |
| OrderProtocol.UnrecordedIsPending | app/live_execution/execution_engine.py:311-349 | without other writers an order is PENDING in every state between its insert and the record of its answer |
| OrderProtocol.LockIsHeldIff | app/live_execution/execution_engine.py:438-445 | however calls end, in every reachable state a lock is held exactly while some call of its engine and key is inside |
| OrderProtocol.NewSignalGoesThrough | app/live_execution/execution_engine.py:251-396 | from any state, a signal nobody has acted on and whose lock is free goes through when nothing outside fails: one new OPEN row, one insert, one broker call, an accepted outcome, the lock free again |
| OrderProtocol.NewOrderIsStoredIff | app/repositories/live_order_repository.py:56-71 | in every reachable state a write under a new order id is refused exactly when an entry call inserted its key or a write offered it before, and otherwise adds its row and nothing else |
| OrderProtocol.ExitUnderTheEntryKeyIsRefused | app/live_execution/execution_engine.py:169-221 | an exit under the signal id and broker of an accepted entry is refused then and at any later time |
| OrderProtocol.SecondUnsignedOrderIsRefused | app/models/live_order.py:198-206 | once a broker has an order without a signal id, every further one is refused forever |
| OrderProtocol.SignalKeyIsInjective | app/live_execution/execution_engine.py:433-436 | different signals have different ids, whatever characters a symbol contains |
| PositionBooks.IndexIsAScan | app/live_execution/live_position_manager.py:99-126 | over any run that never rebooks an id under another symbol, the symbol index is exactly a scan of the book |
| PositionBooks.AddIsCoherentIff | app/live_execution/live_position_manager.py:99-109 | an add keeps the index coherent exactly when the id is new or keeps its symbol |
| PositionBooks.RemoveIsCoherent | app/live_execution/live_position_manager.py:111-116 | a removal keeps the index coherent and the id is gone |
| PositionBooks.HydrateIsCoherentIff | app/live_execution/live_position_manager.py:118-126 | a hydrated book is coherent exactly when no id comes with two symbols |
| PositionBooks.LivePositionManager.CoherentSelects | app/live_execution/live_position_manager.py:140-163 | with a coherent index the positions it leads to, and the open-for-symbol test, are those of a full scan |
| PositionBooks.LivePositionManager.AddPosition | app/paper_trading/position_manager.py:86-97 | book and index after an add |
| PositionBooks.LivePositionManager.RemovePosition | app/paper_trading/position_manager.py:99-105 | book and index after a removal, and what was removed |
| PositionBooks.LivePositionManager.Hydrate | app/paper_trading/position_manager.py:107-120 | book and index are rebuilt from the list alone |
| PositionBooks.HydrateKeepsTheLast | app/paper_trading/position_manager.py:107-120 | of several documents with one id the hydrated book holds the last |
| PositionBooks.HydrateKeepsOnlyTheLast | app/paper_trading/position_manager.py:107-120 | whatever a hydrated book holds is such a last document |
| PositionBooks.LivePositionManager.OnCandle | app/live_execution/live_position_manager.py:154-217 | marks every indexed position once, which with a coherent index are those of a full scan, to the nearest unit of what its shares would bring less what they cost, reversed for a SHORT; reports one update each, gives one exit to exactly those whose close is at or past the stop or whose candle ends at or after the end of the day, and touches no other position |
| PositionBooks.MarkLaws | app/live_execution/live_position_manager.py:71-78 | a SHORT is marked at exactly the negative of a LONG at the same numbers, any position at zero at its average price, and none lower at a better close |
| PositionBooks.LivePositionManager.CollectExits | app/live_execution/live_position_manager.py:221-243 | a sweep returns one exit per open position at its last mark |
| PositionBooks.LivePositionManager.ReconcileWithBroker | app/live_execution/live_position_manager.py:247-312 | the diff holds exactly one report per differing position and one per unbooked broker name, and nothing else |
| PositionBooks.ReportsBothSides | app/live_execution/live_position_manager.py:270-303 | a report about a position carries its signed quantity and, if the broker lists the symbol, the broker's different one |
| PositionBooks.LivePositionManager.IsReconciled | app/live_execution/live_position_manager.py:247-312 | the diff is empty exactly when every signed quantity is the broker's and every broker symbol is booked |
| PositionBooks.InStepHasTheSign | app/live_execution/live_position_manager.py:270-296 | in step, the broker holds the booked number of shares, positive exactly for a LONG |
| Reconciliation.BrokerReconciliationService.ReconcilePositions | app/reconciliation/broker_reconciliation_service.py:387-515 | the detected discrepancies, in order, for stored documents and a broker list |
| Reconciliation.BrokerReconciliationService.ResolveQuantity | app/reconciliation/broker_reconciliation_service.py:699-731 | sets the quantity of the open document to a positive broker quantity, and says whether it did |
| Reconciliation.BrokerReconciliationService.AttemptAutoResolution | app/reconciliation/broker_reconciliation_service.py:602-643 | the documents after all repairs and the resolution fields of every discrepancy |
| Reconciliation.ResolvedIff | app/reconciliation/broker_reconciliation_service.py:602-731 | a pass resolves exactly the quantity reports whose broker size is not zero |
| Reconciliation.PassIsPointwise | app/reconciliation/broker_reconciliation_service.py:602-643 | a detect-and-repair pass corrects each document on its own, whatever the others are |
| Reconciliation.PassSetsTheSize | app/reconciliation/broker_reconciliation_service.py:602-731 | a pass gives each open position of the broker the size of the broker's last entry for its symbol, unless that is zero or there is none, and changes nothing else |
| Reconciliation.PassConverges | app/reconciliation/broker_reconciliation_service.py:387-515 | a second pass reports quantities only where the broker lists zero, reports everything else as before, and repairs nothing; only quantities changed and nothing was opened or closed |
| Reconciliation.RepairedTotalIsRightIff | app/reconciliation/broker_reconciliation_service.py:699-731 | the repaired total on a symbol is the broker's exactly when one open position holds it |
| Reconciliation.DetectionIsExact | app/reconciliation/broker_reconciliation_service.py:427-513 | no quantity, missing or orphan report exactly when every document and broker entry matches |
| Reconciliation.ReportIff | app/reconciliation/broker_reconciliation_service.py:387-515 | a discrepancy is reported exactly when the data warrant it: a position without an entry, a size that differs, an average price more than half a percent off the stored one, an unbooked entry that is not flat |
| Reconciliation.InStepIsClean | app/services/live_execution_service.py:634-641 | a clean book diff leaves the service nothing to report on the same data |
| Reconciliation.CleanIsInStepIff | app/reconciliation/broker_reconciliation_service.py:449-494 | after a clean service result the book diff is clean exactly when sides agree with signs and no flat broker entry is unbooked |
| PaperLedger.SlippageIsAdverseIff | app/paper_trading/paper_execution_engine.py:105-125 | for every price, on entry and exit of either side, exactly when slippage stays adverse after rounding to four decimals |
| PaperLedger.SlippageIsNeverFavourable | app/paper_trading/paper_execution_engine.py:105-125 | it always does at a price of four decimals, and at any price once the slippage is worth half a unit of the fourth decimal |
| PaperLedger.TinyPriceIsFavoured | app/paper_trading/paper_execution_engine.py:105-125 | at the default slippage every fill from ten paise up is adverse; at Rs 0.01002 a LONG entry and a SHORT exit are filled at 0.0100 |
| PaperLedger.RoundTripLosesBrokerage | app/paper_trading/pnl_engine.py:45-61 | a round trip at one price, of any number of decimals, loses at least the brokerage of both sides |
| PaperLedger.SizedQuantityIsTheLargestFit | app/paper_trading/paper_execution_engine.py:129-146 | the sized quantity is the largest whose cost fits the smaller of capital per trade and available capital |
| PaperLedger.EntryIsAffordable | app/services/paper_trading_service.py:284-364 | an accepted entry never drives available capital below zero |
| PaperLedger.OpenTakesTheCost | app/services/paper_trading_service.py:311-358 | an opened position is filled near the trigger with the slippage against its side, has the largest number of shares that capital per trade, free capital and allotment pay for, and moves exactly that cost from available to used |
| PaperLedger.GateNamesTheFirstViolation | app/paper_trading/risk_manager.py:110-135 | the gate refuses with a reason exactly when that rule, spelled out, is violated and no rule before it is |
| PaperLedger.EntryOpensIff | app/services/paper_trading_service.py:284-364 | a position is opened exactly when no rule is violated and the budget pays for one share |
| PaperLedger.PaperAccount.ApplyEntry | app/paper_trading/pnl_engine.py:194-199 | entry capital moves from available to used |
| PaperLedger.PaperAccount.ApplyRealizedPnl | app/paper_trading/pnl_engine.py:164-191 | the whole account after a close |
| PaperLedger.PaperAccount.ResetDailyState | app/paper_trading/session_manager.py:101-123 | a daily reset clears per-day counters and the pause and keeps lifetime ones |
| PaperLedger.PaperAccount.Pause | app/paper_trading/session_manager.py:147-154 | only the pause fields change |
| PaperLedger.PaperAccount.Resume | app/paper_trading/session_manager.py:156-163 | only the pause fields change |
| PaperWriters.LedgerIsConservedIff | app/services/paper_trading_service.py:284-503 | for every interleaving of writers that each read and write the whole account, failing writes included: available + used = starting + realized, used is the entry capital of the open positions, and counters, daily P&L and losing streak are those of the trade rows, exactly when the stored account has missed no entry and no trade row and the last reset it knows gives the figures of the last reset |
| PaperWriters.OneAtATimeConservesIff | app/services/paper_trading_service.py:403-503 | writers that never overlap conserve all of that exactly when no position is closed twice |
| PaperWriters.LedgerIsConserved | app/paper_trading/pnl_engine.py:164-199 | overlapping writers conserve it while each writes a copy that has missed no row and no reset, no account write fails over a stored row and no position is closed twice |
| PaperLedger.CloseConservesIffInBook | app/services/paper_trading_service.py:403-503 | one close, whatever it books, keeps all of that exactly when the position is still in the book |
| PaperLedger.CloseBooksTheProceeds | app/services/paper_trading_service.py:403-426 | a close adds one trade row: to half a unit, the cash received less the cash paid less the brokerage of both sides, at an exit filled with the slippage against the trader; the account gets the entry capital and that profit |
| PaperLedger.OpenThenCloseLoses | app/services/paper_trading_service.py:284-503 | opening and closing by the two steps at one price costs the account at least the brokerage of both sides |
| PaperWriters.SecondCloseCreditsAgain | app/services/paper_trading_service.py:403-503 | open, close, close of one position leaves the account its entry capital too much, at any prices and settings |
| PaperWriters.FailedRowIsForever | app/services/paper_trading_service.py:355-360 | an entry or exit whose account write fails after its position or trade row is stored, and a second close, are never made up for |
| PaperLedger.ClampIsIdle | app/paper_trading/pnl_engine.py:178-180 | closing a held position never meets the clamp at zero |
| PaperWriters.PositionSizeIsCapped | app/paper_trading/risk_manager.py:203-216 | in every interleaved run no position is larger than its share of the starting capital |
| PaperWriters.OpenCountIsCapped | app/paper_trading/risk_manager.py:175-187 | the open count stays within its limit in every interleaved run |
| PaperWriters.LateWriteConservesIff | app/paper_trading/session_manager.py:101-163 | a pause, resume, mark or reset that reads a balanced account and writes it back later leaves it balanced exactly when no entry and no trade row was added meanwhile and, unless it is a reset, it undoes no reset of figures that were not zero |
| PaperWriters.LateWriteLosesAnEntry | app/services/paper_trading_service.py:626-632 | any of these four, read before a first entry and written after it, frees the capital the open position holds |
| PaperWriters.FirstEntry | app/paper_trading/risk_manager.py:110-135 | with the default settings a first entry at Rs 100 is admitted and takes Rs 99,949.95 |
| CapitalAllocation.CapitalAllocator.Allocate | app/portfolio/capital_allocator.py:113-136 | one decision per candidate in input order, by the chosen method |
| CapitalAllocation.CapitalAllocator.AllocateEqually | app/portfolio/capital_allocator.py:140-161 | the equal-weight loop |
| CapitalAllocation.CapitalAllocator.AllocateByScore | app/portfolio/capital_allocator.py:163-190 | the score-weighted loop, falling back to equal weight when no score is positive |
| CapitalAllocation.CapitalAllocator.AllocateByRisk | app/portfolio/capital_allocator.py:192-218 | the fixed-risk loop, rejecting a zero distance to the stop |
| CapitalAllocation.AllocationsAreWithinBounds | app/portfolio/capital_allocator.py:140-218 | each result is zero with a reason or within half a paisa of the minimum and the cap |
| CapitalAllocation.AllocationPaysItsShare | app/portfolio/capital_allocator.py:140-218 | each result pays the share of its method to the nearest paisa, or refuses it as below the minimum |
| CapitalAllocation.EqualShareIsLargest | app/portfolio/capital_allocator.py:140-151 | an equal share is the largest that is within the cap and, once per candidate, within the available capital |
| CapitalAllocation.ScoreShareIsLargest | app/portfolio/capital_allocator.py:163-190 | a score share is the largest within the cap and within the candidate's part of the available capital |
| CapitalAllocation.RiskShareIsLargest | app/portfolio/capital_allocator.py:192-218 | a fixed-risk share is the largest within the cap, the available capital and what loses the fixed amount between entry and stop |
| CapitalAllocation.BatchFitsAvailable | app/portfolio/capital_allocator.py:140-190 | weighted results sum to at most the available capital plus half a paisa each |
| CapitalAllocation.BetterScoreGetsNoLess | app/portfolio/capital_allocator.py:163-190 | a better score never gets less |
| CapitalAllocation.FixedRiskBoundsTheLoss | app/portfolio/capital_allocator.py:192-218 | exiting at the stop loses at most the fixed amount, up to rounding |
| CapitalAllocation.CapIsPassedIff | app/portfolio/capital_allocator.py:140-218 | for which settings some batch, by some method, can pass the per-trade cap |
| PortfolioRisk.CapsHoldInEveryRun | app/portfolio/portfolio_risk_manager.py:104-278 | in every run total exposure, open count and free capital stay within limits and used capital is the sum of strategy exposures |
| PortfolioRisk.ApprovedIff | app/portfolio/portfolio_risk_manager.py:104-278 | in every reachable state a candidate is approved exactly when the allocator did not refuse it, the day is not halted or at its loss limit, it is within the per-trade cap, one more position is allowed, total exposure and capital have room, and so have its strategy and its sector, the sector also for one more position |
| PortfolioRisk.GateNamesTheFirstViolation | app/portfolio/portfolio_risk_manager.py:104-278 | the gate refuses with a reason exactly when that rule, spelled out without divisions, is violated and no rule before it is |
| PortfolioRisk.EveryCandidateIsCounted | app/services/portfolio_service.py:400-430 | in every run each candidate is counted once, as approved or as rejected, and the used capital is the sum of what was approved |
| PortfolioRisk.CountIsTheApprovedRows | app/repositories/portfolio_allocation_repository.py:169-185 | the correlated count of a sector is the number of its approved rows |
| PortfolioRisk.UpsertIsFound | app/repositories/portfolio_allocation_repository.py:26-54 | after an upsert the row of the signal is the one written and every other is as before |
| PortfolioRisk.GroupCapHoldsIff | app/portfolio/portfolio_risk_manager.py:213-264 | in every run, repeated signals included, the stored capital of a strategy or sector keeps its limit, and its running exposure keeps it exactly when the capital that repeats have overwritten fits beside the stored capital |
| PortfolioRisk.ExposureIsStoredPlusLost | app/services/portfolio_service.py:400-430 | in every run a running exposure is the stored capital plus what repeated signals have overwritten |
| PortfolioRisk.StoredCapsHold | app/portfolio/portfolio_risk_manager.py:213-264 | in every run stored capital and sector count keep their limits |
| PortfolioRisk.GroupCapsHold | app/portfolio/portfolio_risk_manager.py:213-264 | over fresh signals rows and exposures agree and no strategy exposure, sector exposure or sector count passes its limit |
| PortfolioRisk.FreshSignalsLoseNothing | app/repositories/portfolio_allocation_repository.py:26-41 | fresh signals overwrite no capital |
| PortfolioRisk.ProcessAgreesIff | app/repositories/portfolio_allocation_repository.py:26-41 | stored rows keep agreeing with running exposures exactly when the signal has no row that carries capital |
| PortfolioRisk.LossHalts | app/services/portfolio_service.py:428-439 | with capital, a realized loss at or above its percentage of the total refuses the candidate at hand and leaves the portfolio halted |
| PortfolioRisk.HaltsIff | app/services/portfolio_service.py:428-439 | processing a candidate halts the portfolio exactly at that loss, and otherwise leaves loss and flag alone |
| PortfolioRisk.HaltedApprovesNothing | app/portfolio/portfolio_risk_manager.py:149-169 | a halted portfolio approves nothing, and moves no capital, until somebody clears the flag |
| PortfolioRisk.RepeatedSignalPassesTheStrategyCap | app/services/portfolio_service.py:187-330 | one signal processed three times passes the strategy cap |
| PortfolioRisk.PerTradeRuleFiresIff | app/portfolio/portfolio_risk_manager.py:198-211 | the per-trade rule can refuse an allocated amount exactly when the cap, at least the minimum, rounds past itself |
| PortfolioRisk.PerTradeRuleIsIdle | app/portfolio/portfolio_risk_manager.py:198-211 | when the cap does not round past itself the gate never refuses an allocated amount for its size |
| RateLimiting.RateLimitMiddleware.Dispatch | app/middleware/rate_limit_middleware.py:41-77 | the reply and the client's new deque; every other deque is untouched |
| RateLimiting.WindowIsExact | app/middleware/rate_limit_middleware.py:56-73 | the deque is exactly the accepted times of the last 60 seconds, never more than the limit, and acceptances `limit` apart are over 60 seconds apart |
| RateLimiting.RefusedIffWindowFull | app/middleware/rate_limit_middleware.py:61-71 | a request is refused exactly when `limit` requests were accepted in the last 60 seconds |
| RateLimiting.RequestIsRefusedIff | app/middleware/rate_limit_middleware.py:41-77 | over every ordered run of requests of all clients, one is refused exactly when the served requests of its address and kind filled its own limit in the last 60 seconds: the authentication limit for a path under /api/v1/auth/, the general one for any other; probes are never counted |
| RateLimiting.NonPositiveLimitAlwaysFails | app/middleware/rate_limit_middleware.py:61-68 | a limit of zero or less fails on every request |
| RateLimiting.ServedAgainIff | app/middleware/rate_limit_middleware.py:57-68 | a quiet refused client is served again exactly once its oldest counted time is over 60 seconds old |
| RateLimiting.RetryHintIsTooEarly | app/middleware/rate_limit_middleware.py:68-68 | waiting exactly as long as the hint says is refused again |
| RateLimiting.RetryHintIsTheTimeLeft | app/middleware/rate_limit_middleware.py:68-68 | the hint is the whole seconds left until the oldest counted time is 60 seconds old |
| RateLimiting.ClientsAreIndependent | app/middleware/rate_limit_middleware.py:49-59 | each client's deque is the one its own requests alone would leave |
| PnlSeries.MaxDrawdown | app/analytics/math_helpers.py:84-105 | one pass finds the maximum of p[i] - p[j] over all i <= j, and the percentage of its first occurrence |
| PnlSeries.PercentIsNearest | app/analytics/math_helpers.py:84-105 | the percentage is the nearest to the drop over the size of its peak, and zero at a peak of zero |
| PnlSeries.DailyPnlSeries | app/analytics/math_helpers.py:137-152 | the per-day series, or a length error |
| PnlSeries.DailyIsTheSum | app/analytics/math_helpers.py:149-152 | each day holds the sum of its trades and nothing is lost |
| PnlSeries.CumulativePnlSeries | app/analytics/math_helpers.py:155-166 | each point is the sum of all days up to it in calendar order, the last one the whole sum |
| PnlSeries.EquityCurve | app/paper_trading/pnl_engine.py:126-152 | each point is the starting capital plus the prefix sum of trades by closing time, in closing order, and the last equity is the capital plus the whole profit |
| PnlSeries.EquityEndsAtTheTotal | app/paper_trading/pnl_engine.py:136-152 | the curve's last point holds the whole profit and is the same for every permutation of the trades |
| Rounding.TiesGoToEven | app/paper_trading/pnl_engine.py:61-61 | the rounding of every stored amount sends ties to the even neighbour |
| StableSorts.SortIsStable | app/paper_trading/pnl_engine.py:138-138 | sorting orders by key, keeps the items, and keeps the order of equal keys |
| Attribution.Group | app/analytics/strategy_attribution.py:121-143 | the lists collected per key are exactly the trades of each key |
| Attribution.Attribute | app/analytics/strategy_attribution.py:104-117 | one performance per group, ranked by net profit |
| Attribution.PerformanceIsConsistent | app/analytics/strategy_attribution.py:222-244 | wins plus losses are the trades and the daily series adds up to the net |
| Attribution.PerformanceIsOfItsTrades | app/analytics/strategy_attribution.py:206-247 | a group's figures read off the raw trades: how many belong to its strategy or symbol, how many made a profit and how many did not, their profit, and their profit on each day |
| Attribution.OrderDoesNotMatter | app/analytics/strategy_attribution.py:206-271 | a group's performance is the same for every order of the trades |
| Attribution.AttributionConserves | app/analytics/strategy_attribution.py:206-247 | nets, trade counts, wins and each day's profit of the groups add up to those of all trades |
| Attribution.StockReport | app/analytics/stock_attribution.py:100-164 | the report holds the best symbols with enough trades; what it omits had too few or beats nothing reported |
| Attribution.StockReportConserves | app/analytics/stock_attribution.py:100-118 | reported and omitted symbols account for the whole profit |
| Attribution.BreakdownAddsUp | app/analytics/stock_attribution.py:125-138 | a symbol's strategy breakdown adds up to its own profit, trades and wins |
| Attribution.MergeDaily | app/analytics/portfolio_analytics.py:94-103 | the nested loop is the day-by-day sum of the strategies' series |
| Attribution.MergedIsTheDailySeries | app/analytics/portfolio_analytics.py:94-103 | the merged portfolio series is the daily series of all trades |
| Attribution.Portfolio | app/analytics/portfolio_analytics.py:84-152 | the total, the last cumulative point and the raw trade sum are one number; the reported symbols and those past the cut at 10 000 account for it, and none is past the cut unless there are more |
| Attribution.WorstOf | app/analytics/portfolio_analytics.py:145-147 | the worst symbols are those no other symbol is below |
| PaperLedger.EntryPassesEveryRule | app/paper_trading/risk_manager.py:110-135 | an opened entry passed all eight rules and costs at most the capital per trade and the portfolio's allotment |
| PositionBooks.ExitLaws | app/live_execution/live_position_manager.py:195-215 | a position has one exit per candle; its price is never worse than the close and differs from it only on a stop, reported at the stop; a stop hit at a close is the same decision at every worse close, late or not |

## Left out

- CandleBuilders.CandleBuilder.ServeInterval: the bar of a bucket is a value replaced in its row rather than an object updated in place, so aliasing of bucket objects is not captured.
- CandleBuilders.CandleBuilder.FlushAll: the order of symbols is a parameter, since dictionary order is not modelled.
- CandleBuilders.CandleBuilder.OnTick: prices are real numbers, so an infinite or not-a-number price is not represented; the per-symbol lock is one atomic step.
- Attribution.StockReport: the nested symbol and strategy dictionary is modelled as two groupings; win rates, expectancy and contribution percentages are not computed.
- CapitalAllocation.CapitalAllocator.Allocate: the allocation percentage, which divides by the total capital, is not part of the result.
- Attribution.Portfolio: risk contributions, win rates and ratios are not computed; the worst symbols are a set without the order of ties.
- OrderProtocol.AtMostOnce: one broker call means one call of the adapter's place_order; retries inside the adapter are not modelled. Exit orders appear only as writes by order id.
- OrderStates.OrderStateMachine.Transition: timestamps and free-form metadata of audit rows are not modelled.
- PaperWriters.LedgerIsConservedIff: interleavings are not restricted by the lock of entries and exits, so the theorem covers more runs than there are; a row and the account write that follows it are one event, since what other writers read changes only with the account write; a position or trade insert that itself fails is an event that does not happen. The account grid assumes stored amounts and settings of four decimals; brokerage and observed prices are arbitrary reals.
- PaperLedger.SlippageIsNeverFavourable: arithmetic is exact, so binary floating-point error in products and quotients is not captured here or in any other price, share or percentage.
- PortfolioRisk.CapsHoldInEveryRun: the total capital is a whole number of paise and limits are not negative; amounts released when positions close are not modelled because the risk state never takes them back.
- Reconciliation.PassConverges: detection and repair see one broker snapshot and no other writer in between.
- RateLimiting.RateLimitMiddleware.Dispatch: the remaining-requests response header is computed after other requests may have run and is not modelled.
- A sum bound for fixed-risk allocation: the code caps each result by the available capital but not their sum.
- Hard reset of the paper account: it replaces the account and the book at once and adds no case to conservation.
- The status-mismatch auto-fix of reconciliation: it never awaits the transition, so as written it resolves nothing.
- Order-side reconciliation (stale, missing and duplicate orders) and stop-loss checks: independent per-row tests.
- The signal ranker: bounded weighted averages of normalised inputs.
- The kill switch and the feed monitor: their answers are arbitrary inputs of the guard step.
- Sharpe ratio, volatility and consistency scores: square roots and logarithms.
- Databases, routes, schedulers, notifications, settings loading and broker adapters.
