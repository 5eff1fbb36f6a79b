# Verification of the Go trading engine

Dafny models of the engine's order, capital and accounting state machines and of its
simulators, with proofs of what they promise. Money is `real` (exact), quantities are `int`,
instants are integers. Maps, sequences and classes follow the source's own state; every class
method is tied to a pure function of the old state, and the theorems are about those functions
over whole runs.

| component | modules |
|---|---|
| risk manager: capital, throttle, trailing stop, charges | `Charges`, `RiskModel`, `RiskManager`, `RiskCapital`, `Throttle`, `Survivors`, `TrailingStop` |
| durable store | `StoreModel` |
| order protocol: interleaved calls, crashes, broker outcomes | `OrderProtocol`, `ExitSafety`, `EntryBacking`, `OrderDurability`, `PositionRows`, `KillSwitch`, `RateLimit`, `CapitalRuns`, `Witnesses`, `RateWitness` |
| one call at a time, and everything built on it | `TradingEngine`, `MultiLeg`, `StructureRows`, `ExitTrail`, `Runner`, `EntryAgreement` |
| live broker: outcome of an order, signed position book | `OrderOutcome`, `SignedBook` |
| paper broker: margin-aware cash | `PaperCash` |
| startup comparison of books | `Reconcile` |
| strategies: streaming candles, the 9:20 latch | `CandleAggregator`, `NineTwenty`, `StraddleSignals` |
| backtest: simulation, implied volatility, report | `Backtest`, `BacktestRuns`, `BacktestSignals`, `BacktestCosts`, `ImpliedVol`, `Report` |

How to read the main parts:

- `OrderProtocol` is a state machine whose steps are the atomic actions of
  `PlaceEntryOrder` and `PlaceExitOrder`. Any number of calls interleave; the environment of a
  step says what the clock, price feed, broker and disk do. A crash is a run that stops, so a
  property of all runs holds at every crash point.
- `TradingEngine.Alone` runs one call of that machine to its end. The class `Engine` does the
  same imperatively; `Runner` and `MultiLeg` build on it.
- `RiskModel`'s fee schedule and `Backtest`'s pricing, calendar and charges are function
  values, so the proofs hold for any of them; `Charges.EstimateTotal` is the engine's own
  schedule. `Backtest.Desk` gathers what a run needs of pricing; `DeskOf` builds the real one
  from a configuration and `DeskIsSound` proves what `BacktestRuns` asks of it.
- A backtest strategy is any function of everything it has been shown, which covers every
  deterministic strategy with memory.

## Where the code is weaker than it reads

These are proved, not assumed; each lemma gives the exact condition or a concrete case.

- A rollback un-counts the last throttle entry, whoever made it: the count is right if and only
  if such miscounts cancel out (`Survivors.InterleavedRollbackCount`, with a wrong count in
  `Throttle.RollbackMiscounts`).
- Checking the rate limit and opening are two steps. A minute can exceed the limit by the
  entries that overlap and by the rollbacks that un-counted another entry than their own, and
  by no more (`RateLimit.WindowWithinLimitAndOverlap`). Each of the two alone puts two entries
  in a minute that allows one (`Witnesses.TwoChecksBeatTheLimit`,
  `RateWitness.UncountedEntryBeatsTheLimit`).
- Checking the funds and opening are two steps as well: an entry overdraws at most what was
  taken in between (`CapitalRuns.OverdraftIsWhatOthersTook`; 1200 of 1000 in
  `CapitalRuns.TwoChecksOverdraw`).
- An entry is in the risk book before it is sent, so an exit that looks in between sells what
  was never bought (`EntryBacking.LookIsSafeIff`, and `Witnesses.ExitOfNothingBought`).
- A fill reported with a non-positive price leaves the requested quantity in the risk book
  (`TradingEngine.FilledEntryAgreesIff`). The live broker never reports one; the paper broker
  does for a large enough sale of an option (`EntryAgreement.PlaceLiveEntry`,
  `FreePartialSaleDisagrees`).
- After an indeterminate exit the in-flight flag is released although the order may be live
  (`ExitSafety.SendLeavesTwoOpenIff`, and `Witnesses.TwoExitsLive`); an exit whose intent could
  not be written leaves no row (`OrderDurability.SentExitIsAccountedForIff`, and
  `Witnesses.ExitWithoutRow`), although the store's comment asks for one before every order.
- Re-opening a held symbol forgets the capital the old record had locked
  (`RiskCapital.ReopenBalancedIff`, and `RiskCapital.ReopenForgetsCapital`), and in an
  interleaved run nothing keeps two entries of one symbol apart: the capital law holds
  throughout if and only if no open forgets any (`CapitalRuns.CapitalLawHoldsIff`).
- A submission whose reply was lost is told as an ordinary rejection, so the engine rolls back
  an entry that may be live; every other rejection is a real one (`OrderOutcome.PlaceOrder`,
  `EntryAgreement.PlaceLiveEntry`).
- The paper broker books nothing of a fill past zero but settles all of it, and a margined
  short refused at the balance gate has already raised the reserve
  (`PaperCash.StepConservesIff`, with `CrossingCreatesCash` and `RefusedShortStrandsReserve`).
- A snapshot loses every symbol that contains the key separator
  (`NineTwenty.RestoreAlikeIff`, `NineTwenty.SeparatorForgetsEntry`).
- `ImpliedVol` promises never to return a guessed value, but a market price below the price at
  the lowest volatility, yet not below intrinsic value, is answered with about that volatility
  and no error, and the answer is right if and only if the price is within the tolerance of the
  last volatility tried (`ImpliedVol.ImpliedVol`, with a case in `GuessBelowLowestPrice`).
- Scaling a report's costs gives every figure of the run with those costs but the drawdown
  (`BacktestCosts.ScaledReport`), which is right if and only if no fall of the equity curve grows
  past it by the charges paid during it (`BacktestCosts.KeptDrawdownIff`; 2 instead of 4 in
  `KeptDrawdownIsWrong`).

## Model

| member | source | states |
|---|---|---|
| ExitSafety.OneExitPerSymbol | go-engine/internal/engine/engine.go:287-305 | In every interleaving of any number of entry calls, exit calls and stop tests, no two exit calls have a reduce-only order for the same symbol at the broker at once. |
| ExitSafety.FlagNeverLeaks | go-engine/internal/engine/engine.go:288-299 | A symbol is marked in flight exactly while some exit call holds it: the deferred release never forgets one and never frees another call's. |
| ExitSafety.ExitsCloseDistinctOpens | go-engine/internal/engine/engine.go:337-358 | Between any two filled exits of a symbol, and before the first, the symbol was opened: no opening is closed twice, because the flag outlives the deletion of the risk position. |
| ExitSafety.OpenExitOrders | go-engine/internal/engine/engine.go:338-348 | Exit orders of a symbol whose fate the broker left open number those ever answered "unknown" plus the one that may be in flight, never two of these. |
| ExitSafety.SendLeavesTwoOpenIff | go-engine/internal/engine/engine.go:337-348 | In every run, the exit order about to be sent leaves two or more of its symbol open if and only if an earlier exit of it was answered "unknown". |
| Witnesses.TwoExitsLive | go-engine/internal/engine/engine.go:295-348 | A run in which a second exit for the whole position is sent while the first may be live. |
| EntryBacking.FilledExitsHaveOwnEntries | go-engine/internal/engine/engine.go:191-201 | When no exit looks a symbol up between an entry's open and its settled answer, each filled exit has an entry of its own, filled or left unknown, between it and the filled exit before. |
| EntryBacking.SettledLookIsBacked | go-engine/internal/engine/engine.go:301-305 | An exit that finds a position while no entry of the symbol is unsettled finds one an entry was filled for, or may have been, since its last filled exit. |
| EntryBacking.LookIsSafeIff | go-engine/internal/engine/engine.go:301-337 | The exact guard when a position is found: whatever happens next its fill is backed if and only if an entry of the symbol was filled or left unknown since its last filled exit. |
| Witnesses.ExitOfNothingBought | go-engine/internal/engine/engine.go:191-201 | A run whose log is an open, a sale and its fill, with no entry ever sent. |
| Witnesses.EarlyLookAlone | go-engine/internal/engine/engine.go:301-305 | A look at an unsettled entry that has sold nothing yet: over a whole run the absence of such looks is sufficient and not necessary, which is why the exact guard is stated at the look. |
| OrderDurability.SentEntryIsAccountedFor | go-engine/internal/engine/engine.go:170-260 | At every crash point of every run, whatever writes failed: an entry that reached the broker has a durable row, and either that row says exactly what the broker answered or it is on the unresolved list. |
| OrderDurability.SentExitIsAccountedForIff | go-engine/internal/engine/engine.go:317-337 | An exit goes out even if its intent could not be written: a sent exit has a row if and only if that write succeeded, and a row it has is right or listed. |
| Witnesses.ExitWithoutRow | go-engine/internal/engine/engine.go:319-337 | A run in which an exit is at the broker and the store knows no order. |
| OrderDurability.ListIsExact | go-engine/internal/state/store.go:459-470 | While no write fails, an entry is on the unresolved list from its intent until its outcome is marked, and afterwards exactly when the outcome is unknown. |
| OrderDurability.RowTellsOrderAndAnswer | go-engine/internal/engine/engine.go:170-372 | While no write fails, every finished call with an answered order, entry or exit, has left a row of what it sent, symbol, side, quantity and price, and of what was answered: filled with the fill's quantity and price, rejected, or indeterminate. |
| PositionRows.RecordClosedIff | go-engine/internal/engine/engine.go:370-372 | From any moment of any interleaved run: a durable position keeps symbol, side, quantity and entry price; it changes only by the close of a filled exit that was given it, to that exit's price; and while no write fails it is closed if and only if it was already or such an exit has got past its close. |
| PositionRows.FilledEntryHasRow | go-engine/internal/engine/engine.go:232-260 | While no write fails, every filled entry that is done has a durable position of its symbol and side with the quantity and price of the fill, in every interleaving. |
| KillSwitch.KillIsForever | go-engine/internal/risk/risk.go:376-385 | In every interleaved run the kill switch is never cleared, and no entry passes its check after it. |
| KillSwitch.KilledSessionEntersNothingNew | go-engine/internal/risk/risk.go:515-518 | Whatever is opened or sent for an entry after the kill is the work of an entry that had passed its check before it. |
| TradingEngine.Engine.PlaceEntryOrder | go-engine/internal/engine/engine.go:148-270 | The imperative entry does what the protocol call does when it alone moves: same risk state, store rows, broker history and result, on every validation, write and broker outcome. Under the kill switch nothing is sent and nothing changes. |
| TradingEngine.Engine.PlaceExitOrder | go-engine/internal/engine/engine.go:287-396 | The same for an exit, including the refusal of a second one, the missing position and the flag's release on every path. The durable position it was given is closed at the fill price when the exit is filled; no other row changes, and none on any other outcome. |
| TradingEngine.ExitClosesRecord | go-engine/internal/engine/engine.go:366-378 | Over the durable positions only: a lone exit closes the record it was given, at the fill price, exactly when the symbol was held and free and the broker filled and the write committed; otherwise every row is as it was. |
| TradingEngine.KilledEntryDoesNothing | go-engine/internal/risk/risk.go:515-518 | With the kill switch on, a lone entry leaves risk state, store and broker as they were and sends nothing. |
| TradingEngine.FailedEntryLeavesNoTrace | go-engine/internal/engine/engine.go:171-226 | An entry refused or rejected for a symbol not held leaves balances, positions and kill switch as they were, and every throttle count from then on. |
| TradingEngine.FilledEntryAgreesIff | go-engine/internal/engine/engine.go:232-260 | After a full or partial fill the stored quantity is the filled one; the risk quantity equals it if and only if the fill has a positive quantity and price, or was for the requested quantity. |
| EntryAgreement.PlaceLiveEntry | go-engine/internal/engine/engine.go:200-260 | With the live broker's own treatment of the order, a filled entry leaves risk book and durable position at the same positive quantity and price, the exchange's quantity, and the broker's book nets that fill, holding just it where the symbol was flat. A rejected one is out of the risk book, and surely unfilled if and only if its submission got a reply. |
| EntryAgreement.FreePartialSaleDisagrees | go-engine/internal/broker/mock.go:204-224 | At the default spreads a large paper sale of an option is filled in part for nothing: the store records the part, the risk book the whole request. |
| TradingEngine.IndeterminateEntryStaysHeld | go-engine/internal/engine/engine.go:203-214 | An indeterminate entry is not rolled back: the book holds the symbol at the requested size with its capital locked. |
| TradingEngine.ExitEffects | go-engine/internal/engine/engine.go:301-365 | An exit sends at most one order, opposite and for the whole position, removes the position exactly when it is filled, and leaves the flags as it found them. |
| MultiLeg.EnterOrUnwindHeld | go-engine/internal/engine/runner.go:835-881 | Over distinct symbols not held: full success adds exactly the plan; a leg that fails leaves exactly those earlier legs whose own unwind did not fill, plus the failing leg when its fate is unknown. |
| MultiLeg.FailedEntryUnwound | go-engine/internal/engine/runner.go:847-862 | When every unwind fills, a rejected leg leaves none of the plan held and an indeterminate leg leaves only itself. |
| MultiLeg.BasketMarginConserved | go-engine/internal/engine/runner.go:822-844 | The margin locked over a completed structure is the basket total, and nothing when no leg is short. |
| StructureRows.PlanIsAsAsked | go-engine/internal/engine/runner.go:799-814 | Each planned leg has the symbol of the strike and type asked for, its side, and so many lots but at least one. |
| StructureRows.LegFillsIff | go-engine/internal/engine/runner.go:835-862 | The next leg of a structure fills if and only if the kill switch is off, the window has room, price and quantity are positive, a short leg has its share of the margin, that share or a long leg's premium with the charges of a carried option fits in what is free, its intent is written and the broker fills it. |
| StructureRows.PremiumIsSumOfFills | go-engine/internal/engine/runner.go:835-875 | The entry premium of a structure that is on is the sum of the prices its legs were filled at. |
| StructureRows.StructureHasItsRows | go-engine/internal/engine/runner.go:847-872 | While no write fails, a structure that is on has an open durable position for each leg, under the leg's record, and no other row has changed. |
| StructureRows.EnteredAndLeft | go-engine/internal/engine/runner.go:835-926 | While no write fails, a structure entered and then exited in full leaves no row it added open and every other row as it was. |
| MultiLeg.LegsGoOutInOrder | go-engine/internal/engine/runner.go:837-870 | At every moment of an entry, unwind included, the broker has been sent the first legs of the plan in plan order and has filled all of them but possibly the last. |
| MultiLeg.HedgesFillFirst | go-engine/internal/engine/runner.go:837-870 | When no long leg is listed after a short one, at any moment of the entry a filled short leg means every long leg is filled already. |
| MultiLeg.IronFlyWingsFillFirst | go-engine/internal/strategy/iron_fly.go:85-100 | The iron fly never has a short body leg filled before both wings are. |
| MultiLeg.ExitLegsHeld | go-engine/internal/engine/runner.go:887-901 | Closing legs in order takes out of the book exactly those whose exit was free to go and filled, and touches nothing else. |
| MultiLeg.ExitLegsCompleteIff | go-engine/internal/engine/runner.go:912-926 | The exit of a structure over distinct legs counts as complete if and only if every leg was held, not in flight elsewhere, and filled. |
| Runner.TickRunner.EnterMultiLeg | go-engine/internal/engine/runner.go:799-881 | No margin quote for short legs: nothing is sent. Otherwise the legs in order, unwind on failure, and a structure is tracked exactly when every leg filled, with the sum of the fill prices. |
| Runner.TickRunner.ExitStructure | go-engine/internal/engine/runner.go:904-953 | A structure is forgotten exactly when all of its exits filled. |
| Runner.TickRunner.FlattenAll | go-engine/internal/engine/runner.go:958-978 | Nothing new is held; a position is gone exactly when an exit of it was filled; one that remains was in flight elsewhere, or sent and not filled. With nothing in flight and a broker that fills, nothing stays held or, where its legs were there to close, tracked. |
| Runner.TickRunner.SoftStopLossCheck | go-engine/internal/engine/runner.go:1025-1100 | Each symbol held at the start of a pass ends closed, tested at a price no older than the limit, or without a usable price, structure or not and despite the early break. A held symbol whose fresh price is at or beyond its stop has an exit sent unless one is in flight. What goes was closed by a filled exit; no stale price is tested; without a hit nothing is sent. |
| Runner.TickRunner.CheckLeftovers | go-engine/internal/engine/runner.go:1075-1099 | Positions no structure has covered are all tested, skipped for want of a fresh price, or closed, and every hit sends an exit unless one is in flight. |
| Runner.TickRunner.CheckStructure | go-engine/internal/engine/runner.go:1044-1062 | Only legs looked at before the break count as covered; a hit tries an exit of every leg of the structure that is held. |
| OrderProtocol.ValidatedEntryIsFunded | go-engine/internal/risk/risk.go:497-546 | What passing validation guarantees: opened while no less capital is free than at the check, the entry never leaves more capital locked than there is. |
| OrderProtocol.FundsCheckIsExact | go-engine/internal/risk/risk.go:497-546 | An entry passes validation if and only if the kill switch is off, the window has room, price and quantity are positive, a short derivative has a margin quote, and its capital fits in what is free. |
| TradingEngine.EntrySentIff | go-engine/internal/engine/engine.go:148-201 | An entry gets to the broker if and only if it passes its check and its intent is written, and is filled exactly when the broker then fills it. |
| CapitalRuns.OverdraftIsWhatOthersTook | go-engine/internal/engine/engine.go:157-198 | In every interleaving, an open leaves more capital locked than there is by at most what was taken of the free capital between its entry's check and itself; so not at all when nothing was. |
| CapitalRuns.OnlyTheseTake | go-engine/internal/risk/risk.go:583-799 | Only opens, corrections to a fill, closes, and rollbacks of a position that locked less than nothing take free capital, and exactly how much. |
| CapitalRuns.TwoChecksOverdraw | go-engine/internal/engine/engine.go:157-198 | Two entries of 600, checked before either opens: 1200 of 1000 marked as used, and if both are of one symbol only 600 locked. |
| RiskManager.Manager.Open | go-engine/internal/risk/risk.go:583-615 | Prunes and extends the throttle list, locks capital and records the position. |
| RiskManager.Manager.RollbackPosition | go-engine/internal/risk/risk.go:686-706 | Releases the position's capital and un-counts the last order. |
| RiskManager.Manager.UpdatePositionPrice | go-engine/internal/risk/risk.go:722-761 | Corrects price, quantity, charges, stop and locked capital to the fill. |
| RiskManager.Manager.Close | go-engine/internal/risk/risk.go:773-799 | Releases the capital, books the net profit and forgets the position. |
| RiskManager.Manager.ShouldTriggerStopLoss | go-engine/internal/risk/risk.go:1012-1033 | Trails the stop first when trailing, then hits exactly when stops are enabled, the symbol is held and the price is at or beyond the stop it now has. |
| RiskCapital.SessionConservesCapital | go-engine/internal/risk/risk.go:583-799 | Over every run of opens of unheld symbols, fills, rollbacks, closes, price ticks and kills: the session balance used is the sum locked by the open positions, balance less realized profit stays the initial balance, and a flat book locks nothing. |
| CapitalRuns.CapitalLawHoldsIff | go-engine/internal/engine/engine.go:148-365 | Over every interleaving of entry calls, exit calls, stop tests and kills: the session balance used is what the open positions lock at every moment, and the balance the initial one plus the profit, if and only if every open found its symbol not held or holding nothing locked. |
| RiskCapital.RealizedIsSumOverCloses | go-engine/internal/risk/risk.go:773-799 | The running profit is the sum over closes of the gross move at the corrected fill less the entry and exit charges, each once. |
| RiskCapital.ReopenBalancedIff | go-engine/internal/risk/risk.go:583-615 | Re-opening a symbol keeps the capital law if and only if it was not held or had locked nothing. |
| RiskCapital.ReopenForgetsCapital | go-engine/internal/risk/risk.go:583-615 | Two opens of one symbol from a new session mark 200 as used while 100 are locked. |
| Throttle.ManagerCountsWholeLog | go-engine/internal/risk/risk.go:407-429 | Over every run with a clock that does not go back, the count a validation sees is the count over the order log that was never pruned. |
| Throttle.PruningIsInvisible | go-engine/internal/risk/risk.go:407-416 | From any list, the pruned one counts as the whole log does at every later time, opens and un-counts included. |
| Throttle.RateLimitHolds | go-engine/internal/risk/risk.go:515-522 | When every open passed a check before it, however much earlier, no trailing minute of the order list that was never pruned, ending at any time, holds more times than the limit plus the most opens between one entry's check and its own open. The list drops its last time at each rollback, so this bounds the list, not the entries. |
| Survivors.SurvivorsWithinLimit | go-engine/internal/risk/risk.go:515-522 | Of the entries themselves, each rollback taking back its own: no minute holds more that were not rolled back than the limit, plus that overlap, plus the rollbacks that un-counted another entry than their own. |
| Survivors.CountIsRightIff | go-engine/internal/risk/risk.go:407-429 | Whenever the manager counts, it counts the entries not rolled back if and only if the miscounts of the rollbacks so far cancel out. |
| RateLimit.WindowWithinLimitAndOverlap | go-engine/internal/engine/engine.go:157-220 | For every interleaved run with a clock that does not go back, no minute holds more entries that were not rolled back than the limit, plus the most entries opened between one entry's check and its open, plus the rollbacks that un-counted another entry than their own; so the limit itself when there was neither. |
| RateLimit.CountOfRunIsRightIff | go-engine/internal/engine/engine.go:157-220 | At every moment of such a run the manager's count is that of the entries not rolled back if and only if the rollbacks' miscounts cancel out. |
| Witnesses.TwoChecksBeatTheLimit | go-engine/internal/engine/engine.go:157-198 | A run of two entries, both checked before either opens, that puts two in the window of a limit of one. |
| RateWitness.UncountedEntryBeatsTheLimit | go-engine/internal/engine/engine.go:157-220 | A run without overlap: an entry of 0 s rejected at 61 s un-counts the one of 60 s, another opens at 62 s, and both are held in a minute that allows one. |
| Throttle.RollbackUndoesOpen | go-engine/internal/risk/risk.go:686-706 | Open then rollback of an unheld symbol restores balances and positions, and every count from then on. |
| Survivors.InterleavedRollbackCount | go-engine/internal/risk/risk.go:686-706 | Over every run of the manager from a new session, rollbacks among one another included, the count is that of the entries not rolled back if and only if the miscounts cancel out, as they do when each rollback dropped its own entry or one on the same side of the window. |
| Throttle.RollbackAfterOpens | go-engine/internal/risk/risk.go:695-698 | From any state, after an open and any further opens, fills, closes and ticks, rolling the first back leaves the others' count if and only if nothing else was opened, or its entry and the last one are both inside the window or both outside it. |
| Throttle.RollbackMiscounts | go-engine/internal/risk/risk.go:695-698 | An entry at 0 s rolled back after another at 59 s: at 61 s the manager counts none where one is in the window. |
| TrailingStop.TrailingStopIsRatchet | go-engine/internal/risk/risk.go:1036-1057 | Over any price path the peak is the best of entry and prices, and the stop is the tightest of the first stop and the levels set at record prices. |
| TrailingStop.StopNeverLoosens | go-engine/internal/risk/risk.go:1012-1057 | A price that hits the stop now still hits it after any further prices. |
| TrailingStop.StopFollowsPeak | go-engine/internal/risk/risk.go:1036-1057 | For a distance between 0 and 100 percent, the stop is the first stop or the level at the peak, whichever is tighter. |
| TrailingStop.HitAfterOpenIff | go-engine/internal/risk/risk.go:980-1057 | After an open at a price and any tests of any symbols, the next test of the symbol hits if and only if stops are enabled and the price is at or beyond the first level, so many percent or points from the entry, or the trailing level at the best price seen if that is tighter. |
| TrailingStop.HitAfterFillIff | go-engine/internal/risk/risk.go:722-761 | The same after a fill, whose price replaces the entry's; and a symbol not held never hits. |
| Charges.ChargesMonotone | go-engine/internal/risk/risk.go:178-241 | Charges are never negative and never fall as turnover grows, for every trade type, side and non-negative rate card. |
| Charges.DefaultCharges | go-engine/internal/risk/risk.go:129-241 | The default rate card's charges for each trade type and side, as one formula of the turnover. |
| RiskModel.BreachedIff | go-engine/internal/risk/risk.go:951-972 | With a positive initial balance, entries are halted exactly under the kill switch, with nothing left, or once the loss reaches the allowed percentage of that balance. |
| StoreModel.Store.MarkOrderResolved | go-engine/internal/state/store.go:398-420 | Changes status and fill of an existing row in one transaction, or nothing. |
| SignedBook.AngelBook.UpdatePosition | go-engine/internal/broker/angel_broker.go:1360-1389 | The map after a fill is the netted book: add at average cost, reduce, delete at zero, flip the remainder. |
| SignedBook.BookIsSignedSum | go-engine/internal/broker/angel_broker.go:1360-1389 | After any positive fills a symbol's holding is the signed sum of its fills: absent if and only if that is zero, on the side of its sign, flips included. |
| SignedBook.BookValuesFills | go-engine/internal/broker/angel_broker.go:1371-1388 | Net quantity times average price less the signed cost of the fills is the profit realized on the closed quantity. |
| SignedBook.FlatMeansCash | go-engine/internal/broker/angel_broker.go:1360-1389 | Whenever a symbol is flat, its realized profit is the cash its fills brought in. |
| OrderOutcome.PollOrderFill | go-engine/internal/broker/angel_broker.go:655-674 | Polling stops at the first terminal reply or uses its whole budget; what it returns is the last state told, which a failed request does not change. |
| OrderOutcome.Resolve | go-engine/internal/broker/angel_broker.go:583-646 | The first of the ten replies that says complete, rejected or cancelled decides: complete, or cancelled after a part, with positive quantity and price is filled with these; rejected, or cancelled with nothing filled, is that; one without usable numbers, and no such reply at all, is indeterminate. |
| OrderOutcome.PlaceOrder | go-engine/internal/broker/angel_broker.go:571-634 | Every failed submission is told as a rejection, a lost reply among them. A fill told is what a truthful exchange filled; an order told to be dead can have filled nothing if and only if its submission got a reply. |
| PaperCash.MockBroker.SettleCash | go-engine/internal/broker/mock.go:263-319 | Cash moved and reserve changed by a fill, on every branch of side, margin and existing position. |
| PaperCash.MockBroker.PlaceOrder | go-engine/internal/broker/mock.go:325-402 | One order on the paper books: rejection, settlement, the balance gate (after the reserve was raised), position and cleanup. |
| PaperCash.SimulateFillQuantity | go-engine/internal/broker/mock.go:229-252 | A request of at least one fills between one and itself; a partial draw fills strictly less. |
| PaperCash.FreeSaleIff | go-engine/internal/broker/mock.go:204-224 | A paper sale at a positive reference is filled for nothing if and only if the scaled half-spread of its symbol, an option or not, reaches the whole price. |
| PaperCash.FillsAgainstTheOrder | go-engine/internal/broker/mock.go:204-224 | A paper fill is never better than the reference: a purchase is dearer by the scaled half-spread of its symbol, a sale cheaper by as much but never below zero. |
| PaperCash.LargeSaleIsFree | go-engine/internal/broker/mock.go:204-224 | At a price of 100 and the default spreads, a sale of 8366700 of the option X1CE is filled for nothing, of the equity X at 93.32. |
| PaperCash.RunAccounts | go-engine/internal/broker/mock.go:263-433 | Over every run at all, balance plus reserves plus the worth of positions is the starting value plus realized profit less fees plus an explicit drift. |
| PaperCash.StepConservesIff | go-engine/internal/broker/mock.go:360-433 | From exact reserves an order conserves value if and only if it was rejected, or priced at zero, or neither crosses zero nor is a margined short refused at the balance gate. |
| PaperCash.OpeningIsPaidFor | go-engine/internal/broker/mock.go:360-373 | An order that opens or adds is paid in full, as turnover, margin or credit with the fee, and filled unless it costs more than there is; then cash and positions stay, so no such order overdraws the account. |
| PaperCash.HoldingAfterFill | go-engine/internal/broker/mock.go:403-431 | A filled order moves the signed holding by the fill but not past zero; adding averages what was paid, reducing keeps the average, and no other symbol moves. |
| PaperCash.RejectionsAndReductions | go-engine/internal/broker/mock.go:343-373 | A rejected order changes nothing, and one that reduces a position is never refused. |
| PaperCash.ReservesStayExact | go-engine/internal/broker/mock.go:278-306 | Unless a refused short strands its margin, each reserve stays cost plus percentage of an open short; and the reserve left when a position closes is exactly zero, so the cleanup drops nothing. |
| PaperCash.CashIsConserved | go-engine/internal/broker/mock.go:263-433 | Over every run from an empty account without crossing fills or refused margined shorts: cash plus reserves plus long cost less unmargined short cost is the initial balance plus realized profit less fees. |
| PaperCash.FlatAccountIsAllCash | go-engine/internal/broker/mock.go:366-379 | Once such an account is flat no reserve is left and its cash is the initial balance plus profit less fees. |
| PaperCash.CrossingCreatesCash | go-engine/internal/broker/mock.go:308-313 | A sale past zero credits the excess and books none of it: a concrete fill that makes 100 from nothing. |
| PaperCash.RefusedShortStrandsReserve | go-engine/internal/broker/mock.go:278-283 | A concrete refused short after which 113 stays reserved. |
| Reconcile.Reconcile | go-engine/internal/state/reconcile.go:94-188 | The report of the two books: for the symbols of both in order of first appearance, each in the bucket of its verdict, with samples and signed sums. |
| Reconcile.ReportPartitions | go-engine/internal/state/reconcile.go:154-185 | Every symbol of either book appears exactly once, in the bucket of its verdict, and no other symbol appears. |
| Reconcile.BucketsByPresence | go-engine/internal/state/reconcile.go:89-93 | A symbol of either book is a phantom exactly when the broker has none of it, an orphan exactly when only the broker has it, and of both books matched or mismatched as the signed sums are equal or not. |
| Reconcile.ItemsTellOfBothBooks | go-engine/internal/state/reconcile.go:154-167 | Each item gives both signed sums of its symbol, and as a sample a record of each book that has one. |
| Reconcile.CleanIffSameBook | go-engine/internal/state/reconcile.go:74-76 | A report is clean if and only if both books have the same symbols with equal signed sums. |
| Reconcile.PermutedIsSameBook | go-engine/internal/state/reconcile.go:84-87 | Reordering records changes no presence and no signed sum. |
| Reconcile.SplitIsSameBook | go-engine/internal/state/reconcile.go:84-87 | Recording a position as two with the same signed sum changes none either. |
| Reconcile.VerdictsOfSameBooks | go-engine/internal/state/reconcile.go:89-93 | Verdicts depend on presence and signed sums only, so neither reordering nor splitting changes one. |
| CandleAggregator.Aggregator.Add | go-engine/internal/strategy/candle_aggregator.go:68-109 | One tick on the two maps; true exactly when it completes a candle; no other symbol moves. |
| CandleAggregator.Aggregator.Feed | go-engine/internal/engine/runner.go:614-623 | Any interleaved stream leaves each symbol what its own ticks leave; in time order that is the batch result. |
| CandleAggregator.StreamingIsBatch | go-engine/internal/strategy/candle_aggregator.go:68-118 | For ticks in time order, the completed candles are the last maxKeep of the batch grouping without its current bucket, and the one being built is the batch's last. |
| CandleAggregator.CompletesIff | go-engine/internal/strategy/candle_aggregator.go:78-98 | In time order, a tick reports a completed candle exactly when it is not the first and the batch grouping has one candle more with it. |
| CandleAggregator.BatchCandle | go-engine/internal/strategy/candle_aggregator.go:62-67 | A candle opens at its bucket's first price, closes at the last, and its high and low are bounds that were reached. |
| CandleAggregator.CandlesIncrease | go-engine/internal/strategy/candle_aggregator.go:78-85 | Bucket starts of completed candles strictly increase. |
| CandleAggregator.VolumeIsRiseIff | go-engine/internal/strategy/candle_aggregator.go:103-107 | For readings that never fall, a candle's volume is its last reading less its first if and only if each reading is a whole number above the one before. |
| CandleAggregator.VolumeWithinRise | go-engine/internal/strategy/candle_aggregator.go:103-107 | For any readings that never fall, truncation keeps the volume at most the rise and short of it by less than one a tick. |
| CandleAggregator.FloorIsTight | go-engine/internal/strategy/candle_aggregator.go:122-131 | A bucket start is the last whole number of intervals since IST midnight that is not after the instant, on the same IST day. |
| CandleAggregator.DayStartIsMidnight | go-engine/internal/strategy/candle_aggregator.go:122-131 | Days begin at midnight of a zone five and a half hours ahead of UTC. |
| CandleAggregator.FloorIsMonotone | go-engine/internal/strategy/candle_aggregator.go:122-131 | Later instants never fall in earlier buckets, across midnight too. |
| NineTwenty.Strategy.Evaluate | go-engine/internal/strategy/nine_twenty.go:112-201 | One evaluation moves one symbol's latch through day reset, entry window, premium stop and square-off, and no other symbol's. |
| NineTwenty.Strategy.ConfirmEntry | go-engine/internal/strategy/nine_twenty.go:216-221 | Marks the symbol entered and its signal answered; no other symbol changes. |
| NineTwenty.Strategy.ConfirmExit | go-engine/internal/strategy/nine_twenty.go:230-236 | Clears entered, pending exit and premium; no other symbol changes. |
| NineTwenty.Strategy.TakeSnapshot | go-engine/internal/strategy/nine_twenty.go:247-264 | Writes exactly five keys for each symbol met, in whatever order the map is walked. |
| NineTwenty.Strategy.Restore | go-engine/internal/strategy/nine_twenty.go:269-303 | Whatever the order of keys, each symbol gets what the map holds for its fields and keeps the rest; malformed values are ignored; and after a snapshot's keys the object can be evaluated and saved again. |
| NineTwenty.RestoreAlikeIff | go-engine/internal/strategy/nine_twenty.go:247-303 | A fresh object restored from a snapshot agrees with the original on a symbol, up to the time of day of its last date, if and only if the symbol has no separator or had no state. |
| NineTwenty.RestoredBehavesIdentically | go-engine/internal/strategy/nine_twenty.go:112-303 | On every later run of contexts and confirmations the restored strategy gives the same signal at every evaluation of a symbol without the separator. |
| NineTwenty.Restart | go-engine/internal/engine/runner.go:282-347 | On the objects: a new strategy with the same parameters, restored from a snapshot, gives the same signals on every later sequence of contexts and confirmations for symbols without the separator, and can be saved in its turn. |
| NineTwenty.Strategy.Play | go-engine/internal/strategy/nine_twenty.go:112-236 | Any sequence of evaluations and confirmations on the object is the run of each symbol's latch by itself. |
| NineTwenty.SeparatorForgetsEntry | go-engine/internal/strategy/nine_twenty.go:274-277 | A symbol containing the separator forgets its entry and signals the straddle again the same morning. |
| NineTwenty.EntriesNeedHandshake | go-engine/internal/strategy/nine_twenty.go:145-157 | Between two straddle signals for a symbol on one day there is a ConfirmEntry and after it a ConfirmExit. |
| NineTwenty.ExitsNeedConfirmation | go-engine/internal/strategy/nine_twenty.go:163-198 | Between two exit signals for a symbol on one day there is a ConfirmExit. |
| StraddleSignals.ExitsIff | go-engine/internal/strategy/nine_twenty.go:112-201 | In every run an evaluation signals an exit if and only if the symbol is in position that day, no exit signalled that day awaits its confirmation, and either the last price is at least the multiplier times the last positive premium shown in position, or it is square-off time: told from the events, without the latch. |
| StraddleSignals.StraddlesIff | go-engine/internal/strategy/nine_twenty.go:140-157 | It signals one call and one put sold at the money if and only if the symbol is flat that day, no straddle signalled that day awaits its confirmation, and it is within five minutes from the entry minute; every other evaluation but an exit holds. |
| Backtest.Run | go-engine/internal/backtest/engine.go:250-377 | Bad data, too few candles and an outlived expiry are told apart exactly; otherwise trades and drawdown are those of the fold over the candles; `BacktestRuns` and `BacktestSignals` say what that fold does. |
| Backtest.ValidateCandles | go-engine/internal/backtest/engine.go:385-396 | Names the first candle with a non-positive price or high below low, if there is one. |
| Backtest.ClosePosition | go-engine/internal/backtest/engine.go:162-208 | Gross and charges summed over the legs at slipped exit premiums, both sides' charges and spreads. |
| Backtest.OpenMultiLeg | go-engine/internal/backtest/engine.go:106-142 | Every leg at its rounded strike, priced at the fill candle's open with slippage against it. |
| Backtest.StrikeIsNearest | go-engine/internal/backtest/engine.go:59-65 | The strike less its offset is a whole number of steps within half a step of the spot. |
| Backtest.DeskIsSound | go-engine/internal/backtest/engine.go:106-208 | Positions and trades are dated and priced by their fill candles, and net is gross less charges: what the run theorems ask of pricing. |
| BacktestSignals.DirectionalFollowsSpot | go-engine/internal/backtest/engine.go:144-157 | When calls gain and puts lose as the spot rises, the position a buy signal opens never loses by a rise of the spot, and that of a sell signal never gains by one. |
| BacktestSignals.LegsAreAsAsked | go-engine/internal/backtest/engine.go:106-157 | Each leg opened has the side, type, lots and strike asked for, a leg-less signal one long leg at the nearest strike. |
| BacktestSignals.NetIsCash | go-engine/internal/backtest/engine.go:106-208 | A trade's net profit is the cash its executions brought in: each premium slipped against it, less charge and spread of each execution once. |
| BacktestSignals.SignalsAreObeyed | go-engine/internal/backtest/engine.go:315-352 | At every candle of every run: an entry signal while flat opens its position at the next open, an exit or opposite signal closes the one held, and everything else changes neither position nor trades. |
| BacktestSignals.FailsIffExpired | go-engine/internal/backtest/engine.go:295-306 | The run fails on an outlived expiry if and only if at some candle but the last it holds a leg at or past its expiry. |
| BacktestSignals.StrategySeesEachCandleOnce | go-engine/internal/backtest/engine.go:281-313 | The strategy is shown one context for each candle from the first it may act on: the candles up to that one and no further, whether a position was held there and for how long, and while none was the closes and volumes. |
| BacktestSignals.PremiumsShownSinceOpening | go-engine/internal/backtest/engine.go:289-313 | While a position is held the prices shown are its premium at the close of each candle since the one it was opened at, and of no other position. |
| BacktestSignals.PremiumsAgreeAtTheFill | go-engine/internal/backtest/engine.go:32-41 | Without slippage a position's entry premium is its current premium at its own fill. |
| BacktestSignals.ForcedCloseIsAtLastClose | go-engine/internal/backtest/engine.go:354-366 | Only the last trade may be a forced close, and it is at the last candle's close. |
| BacktestRuns.ExtendingKeepsThePast | go-engine/internal/backtest/engine.go:266-357 | Extending the candles never rewrites the past: for any deterministic strategy with memory, the signal-closed trades of a run on a prefix begin the trades on the longer series, and the prefix fails on nothing the longer series passes. |
| BacktestRuns.LoopSeesOnlyThePast | go-engine/internal/backtest/engine.go:266-288 | Two series that share a beginning give the same whole state along it. |
| BacktestRuns.TradesAreTraced | go-engine/internal/backtest/engine.go:317-352 | Every trade is exactly the position its entry signal opened at the next open while flat, closed at the open after its exit or opposite signal. |
| BacktestRuns.TradesNeverOverlap | go-engine/internal/backtest/engine.go:319-365 | Each trade closes strictly after it opens and strictly before the next opens; only a forced close may fall on its own opening candle. |
| BacktestRuns.RunEndsFlatAndBalanced | go-engine/internal/backtest/engine.go:329-375 | A run ends flat, and its realized equity is the sum of gross less charges over its trades. |
| BacktestRuns.DrawdownIsGreatestFall | go-engine/internal/backtest/engine.go:270-279 | The one-pass drawdown is the greatest fall from an earlier sample, or from zero, to a later sample of the equity curve, and is attained. |
| BacktestRuns.NextSample | go-engine/internal/backtest/engine.go:270-276 | What is sampled at each candle is what had been realized, plus the mark at that candle's close of the position held. |
| BacktestRuns.ClosingNeverBeatsTheMark | go-engine/internal/backtest/engine.go:162-226 | With no negative price, tick or quantity, closing realizes at most the marked profit. |
| ImpliedVol.ImpliedVol | go-engine/internal/backtest/iv.go:20-69 | The three errors exactly; always stops on a tolerance within 30 passes, so the last line is unreachable; the price of a volatility in range gives it back within a tolerance; an answer is accurate if and only if the market price is not below the lowest volatility's, or within the tolerance of the last one tried. |
| ImpliedVol.Bisect | go-engine/internal/backtest/iv.go:47-67 | The bracket halves around the market price; the answer prices the market or lies in a sliver that the price falls across, under the same exact condition. |
| ImpliedVol.GuessBelowLowestPrice | go-engine/internal/backtest/iv.go:16-19 | A rising pricing function and an accepted market price that no volatility in range comes within 5 of. |
| Report.Report.RecomputeAggregates | go-engine/internal/backtest/report.go:67-124 | Totals, counts, worst day and month rows are exactly those of the trades. |
| Report.Report.ScaleCosts | go-engine/internal/backtest/report.go:132-141 | Rescales every trade (or none for a multiplier of one) and leaves a report that is again exact. |
| BacktestCosts.ScaledReport | go-engine/cmd/backtest/main.go:302-306 | A backtest whose report is scaled afterwards: trades and every figure are those of the backtest run with the scaled charges and spreads, and the drawdown is that of the run with the original ones. |
| BacktestCosts.RunAtCosts | go-engine/internal/backtest/engine.go:250-377 | On any two desks that differ in costs only, the runs finish together, on the same signals, with the same trades at the other charges, and equity curves apart by what has been paid more so far. |
| BacktestCosts.BacktestAtCosts | go-engine/internal/backtest/engine.go:250-377 | In particular the backtest with all charges and spread costs multiplied: the same trades at multiplied charges, and an equity curve lower by the extra charges paid so far. |
| BacktestCosts.DeskCharges | go-engine/internal/backtest/engine.go:106-208 | Multiplying charges and spread costs changes no premium, mark, strike or expiry, and every closed trade's charges by just that factor. |
| BacktestCosts.KeptDrawdownIff | go-engine/internal/backtest/report.go:126-141 | The drawdown a scaled report keeps is never too large for higher costs, and right if and only if no fall, with the extra charges paid during it, is above it; never too small for lower costs, and right if and only if nothing was paid during one of the greatest falls. |
| BacktestCosts.KeptAtEveryMultiplierIff | go-engine/internal/backtest/report.go:126-141 | It is right at every higher multiplier if and only if no charge had been paid by the last sample. |
| BacktestCosts.KeptDrawdownIsWrong | go-engine/internal/backtest/report.go:126-141 | A backtest of one flat trade whose drawdown is 2, and 4 at double costs. |
| Report.FiguresAgree | go-engine/internal/backtest/report.go:104-123 | Wins and losses make up all trades, net is winnings less losings, and the month rows add up to count, net, wins and losses. |
| Report.SummaryIsUnique | go-engine/internal/backtest/report.go:108-123 | Trades determine the summary: months sorted and distinct, worst day the least of any day or zero. |
| Report.ScalingComposesIff | go-engine/internal/backtest/report.go:132-141 | Scaling twice is scaling by the product, for every pair of multipliers, if and only if each trade's net was gross less charges, as it is for every trade the backtest closes. |
| Report.WinsFallWithCosts | go-engine/internal/backtest/report.go:126-141 | With no negative charge, a larger multiplier never gives more winners. |

## Left out

- ExitSafety.OpenExitOrders: an order told to be rejected counts as gone, in `OrderProtocol` and
  what builds on it. That is wrong only for a submission whose reply was lost, which
  `OrderOutcome.PlaceOrder` and `EntryAgreement.PlaceLiveEntry` model.
- BacktestCosts.KeptDrawdownIff: for trades without negative charges, as the rate card gives.
- ExitSafety.ExitsCloseDistinctOpens: asks that the log explains the book at the start, as an
  empty book does, because positions restored at startup have no opening in the log.
- CandleAggregator.StreamingIsBatch: for ticks in time order only, because a tick of an earlier
  bucket closes the candle being built, as in the source.
- PaperCash.MockBroker.PlaceOrder: not for a fill that takes a position's quantity to zero by
  adding to it, which needs a fill below zero: the source then stores a quotient by zero, which
  is no real number. Other fills at or below zero are modelled; the laws over runs are for fills
  of at least one, as the fill simulation gives for requests of at least one.
- NineTwenty.Restart: asks of the original that every symbol it has state for is in its
  `entered` map, as all its own operations keep it; a hand-made snapshot without the entered flag
  would break that.
- BacktestRuns.TradesNeverOverlap: asks for candle times that increase, which the source
  expects of its data but does not check.
- Runner.TickRunner.SoftStopLossCheck: the price feed is fixed during one pass, because the
  statement compares prices tested with prices quoted; no other call acts between its steps.
- Interleaving inside the runner: the runner's own calls are sequential here; interleaved exit
  callers are the business of `OrderProtocol` and `ExitSafety`.
- Locks: each method of the risk manager, the store and the brokers is one atomic step.
- Floating-point rounding, and `exp`, `log` and `erfc` in Black-Scholes: prices are exact reals
  and the pricing function is a parameter, assumed increasing in volatility only where said.
- Randomness and latency of the paper broker: rejection, fill quantity and fill price are
  inputs of an order; the size scale of a fill price (a square root) is given by its square.
- The nil store, the trade ledger, CSV logs, alerts, risk snapshots and log messages.
- Resting stop orders at the broker, order cancelling and the state of the circuit breaker (an
  order it turns away is a submission turned away).
- Symbol, expiry, lot-size and strike resolution in the runner: the leg's target symbol is a
  function parameter; directional entries, pausing and the tick schedule are not modelled.
- `RestorePosition`, `RestoreSnapshot`, `SetMaxOrdersPerMin` and `ResetOrderCount` of the risk
  manager; so the capital law is not carried across a restart.
- Partial exits at the broker: the source closes the whole risk position on any fill, and the
  model does the same without claiming that both books agree afterwards.
- Text codecs: order ids are numbers, statuses are constructors, and the values of a strategy
  snapshot are typed (flag, date to the day, amount), only its keys are real text.
- Time zones: IST is a fixed offset, dates are integers, and a clock that reads zero, which the
  source replaces by the current time, is not an input.
- Sharing of position records: positions are values in maps, so a caller's alias to one is not
  captured.
- Hedge safety while unwinding or exiting (legs close in entry order), and the eventual
  untracking of a half-closed structure.
- The other strategies and their indicators, the implied-volatility series over candles, and
  the report's ratios and printing.
- HTTP, WebSocket, login, instrument download, configuration, command line, dashboard, API
  server, discovery and watchdog: input, output and plumbing.
