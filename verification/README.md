# Grid-trading bot: model and proofs

A Dafny model of the arithmetic and the state machines of a grid-trading bot for perpetual futures: the
bar-by-bar backtest, the maintenance-margin tables and liquidation test, the grid generator, the live basket
monitor, the fee ledger, subscription billing, the market-data pager with its month cache, the rate limiter and
the browser's token refresh. `dafny verify dfyconfig.toml` checks everything.

How to read it. Code that changes objects in place is a class (`SimulatedBasket`, `BacktestEngine`, `LiveBasket`,
`FeeService`, `UserSubscription`, `KlineCache`, `RateLimiter`, `ApiClient`) or a method with a loop, and each method is proved
equal to a function on values (`AfterBar`, `Step`, `Monitored`, `Deducted`, `AfterRenew`, `RefreshedAll`, `Recorded`, `Next`). The
properties are lemmas about those functions, over all inputs and all runs. Money, prices and quantities are exact
reals; times are integers (milliseconds or seconds) or reals. Market data, signals, cache contents, exchange
replies, failures and clock readings are free inputs.

| file | models |
|---|---|
| `MarginTiers.dfy`, `BracketTables.dfy`, `Liquidation.dfy`, `RiskController.dfy` | `risk_manager.py` |
| `GridLevels.dfy`, `Rounding.dfy` | `grid.py`; `round_step` and `round_tick` |
| `SimBasket.dfy`, `BasketFacts.dfy`, `Backtest.dfy`, `BacktestFacts.dfy`, `CandleOutcomes.dfy`, `WalletFacts.dfy`, `TargetFacts.dfy` | `backtest_engine.py` |
| `LiveMonitor.dfy`, `MonitorFacts.dfy`, `MonitorLaws.dfy`, `SafetyNet.dfy`, `DurableRuns.dfy`, `Replacements.dfy` | `grid_bot.py`, with `reconciler.py` as another closer |
| `Ledger.dfy`, `Subscriptions.dfy` | `fee_service.py`, `subscription_service.py` |
| `MarketData.dfy`, `MonthCache.dfy` | `market_data_service.py`, paging loop of `backtest_engine.py` |
| `RateLimit.dfy`, `TokenRefresh.dfy` | `rate_limit.py`, `api.ts` |
| `RealArith.dfy`, `Options.dfy` | products and quotients of reals; an option type |

## Where the code differs from what it says

The model follows the code. Each of these is a lemma with a witness, or an exact condition.

- Safety orders are paid without asking the wallet, so the wallet can be negative while a basket is open
  (`WalletCanGoNegative`, a run of two candles). It never is if the largest share of the base order times
  1 + v + ... + v^N is at most 1 (`AffordableRunsStayCovered`, `LaddersAffordableExactly`). Without risk and age stop, the next candle
  after a fill can bring it about if and only if the wallet does not cover the unfilled rungs (`ExposedExactly`), and so
  can the next two after the entry of a LONG that its nearest rungs leave backed (`FreshExposedExactly`). The
  liquidation test still guarantees that the open profit exceeds the hole (`NegativeWalletNeedsOpenProfit`).
- On one-minute bars the five-minute funding window charges an event on five bars (`FundingChargedFiveTimes`).
- The loss limit takes the absolute value of the unrealised result, so a profit counts as a loss
  (`ProfitReadsAsLoss`, `FixedLimitMeetsDocumentation`, `PercentLimitMeetsDocumentation`).
- The margin guard is closed under adverse moves of a LONG only for thresholds from the last tier's rate up to
  99900 percent (`LongGuardClosedExactly`).
- The liquidation estimate is one-sided only while the wallet covers the maintenance margin at the entry
  (`LongEstimateOneSided`, `ShortEstimateOneSided`).
- Rounding goes towards zero, so a negative value is rounded up (`RoundDownOfNegative`).
- Fills lower a LONG's take-profit strictly only if the coins of its nearest rungs outweigh the rounding of the opening
  take-profit: the opening prices are rounded to the tick, the later targets are not (`TargetFallsExactly`). With
  safety orders that never shrink this means that the nearest rung was stored below the opening take-profit; steps of
  at least one tick at the entry price guarantee it, a tight grid on a cheap symbol does not (`NearestRungDecides`,
  `WideStepsAlwaysPull`, `SameCellRaisesTarget`).
- A monitor tick that executes safety orders and then cannot read the open orders, or meets two live take-profit
  rows, ends without a commit and loses their record; the next tick executes them again
  (`TickAgreesExactlyWhenDurable`, `UnreadableOpenOrdersExecuteTwice`). Well-answered runs do not
  (`WellAnsweredRunsExecuteOnce`).
- A failed cancel leaves two live take-profit rows (`FailedCancelLeavesTwoLive`); what makes the safety net raise
  is two rows that are live by the answers, an UNKNOWN one among them perhaps (`SafetyNetRaisesExactly`).
- A refused risk stop leaves an open basket marked RISK_STOP with its live orders canceled in the database
  (`RefusedRiskStopStaysOpen`).
- The take-profit retry counter never leaves zero, so its limit of three never binds (`RunsCloseOnce`).
- An order reply without a status counts as FILLED, and the watchdog looks at whichever take-profit row the
  database returns first (both part of `TickClosesOnlyWithCause`).
- A request that is rate-limited to the end answers with an empty list, and the download reports success
  (`FetchLosesThePageWhenStarved`, `StarvedDownloadIsEmpty`).
- A paged fetch loses the candle that opens exactly at the end of the range when the earlier candles fill whole
  pages and touch it (`PagedIsWindow`).
- A month cached while it was still current is never completed afterwards (`DownloadedIsFullExactly`,
  `PastChunkStays`, `FullMonthsExactly`), and of two versions of a boundary candle the earlier chunk's wins (`EarlierChunkWins`).
- Calls to the limiter at one and the same instant share one record, so for limits of two and more they all pass
  (`SameInstantEscapes`).
- "No charge after a cancel" needs the free plan to cost nothing (`BilledFreePlanCharges`).
- With pre-placed safety orders a closing tick can leave a take-profit live that it has just placed, and nothing
  else (`CloseLeavesNoLiveRows`, `LegacyCloseLeavesLiveTp`; when exactly: `CloseLeavesLiveExactly`).
- A plan with a negative price is invoiced on subscribing and never charged (`NegativePriceIsNotCharged`).
- The reconciler closes a basket without canceling its order rows (`CloseLeavesNoLiveRows`).
- A fee call without a basket id escapes the duplicate check (`RepeatedFee`).

## Model

| member | source | states |
|---|---|---|
| MarginTiers.TablesWellFormed | backend/app/services/risk_manager.py:143-193 | all five tables are continuous at their bounds, with increasing bounds and increasing rates strictly between 0 and 1, and start without an offset |
| MarginTiers.LookupRefinesBracketSum | backend/app/services/risk_manager.py:196-211 | on any continuous table the first-covering-tier offset lookup is the marginal-bracket sum (proved by induction over the tiers, last rate extended) |
| MarginTiers.MaintenanceIsBracketSum | backend/app/services/risk_manager.py:143-211 | for every symbol and every notional >= 0 the charge is the sum over brackets of rate times the part of the notional inside the bracket |
| MarginTiers.MaintenanceIsMaximum | backend/app/services/risk_manager.py:196-211 | the charge is the maximum over all tiers of rate * notional - amount, and attained |
| MarginTiers.MaintenanceGrowth | backend/app/services/risk_manager.py:196-211 | between two notionals the charge strictly grows, by at most the last rate times the difference and by less than the difference |
| MarginTiers.MaintenanceNonNegative | backend/app/services/risk_manager.py:196-211 | 0 <= charge <= notional, and 0 exactly at 0 |
| MarginTiers.MaintenanceConvex | backend/app/services/risk_manager.py:196-211 | mixing two positions never needs more margin than the mix of their margins |
| BracketTables.BtcCharges | backend/app/services/risk_manager.py:143-154 | BTCUSDT is charged these rates on these slices of the notional, offsets left aside |
| BracketTables.EthCharges | backend/app/services/risk_manager.py:155-165 | the same for ETHUSDT |
| BracketTables.AltCharges | backend/app/services/risk_manager.py:166-183 | the same for SOLUSDT and XRPUSDT |
| BracketTables.DefaultCharges | backend/app/services/risk_manager.py:185-211 | the same for every other symbol |
| Liquidation.LiquidatedMeans | backend/app/services/risk_manager.py:257-277 | ratio >= 1 means balance <= maintenance margin, the constant-999 branch included |
| Liquidation.LiquidationClosedUnderAdverseMoves | backend/app/services/risk_manager.py:257-277 | once a price liquidates, every worse price does: across all tiers, both sides, every symbol |
| Liquidation.SurvivorIsBacked | backend/app/services/risk_manager.py:257-277 | a position that survives the test has balance > maintenance margin >= 0 |
| Liquidation.LongEstimateOneSided | backend/app/services/risk_manager.py:225-254 | no price strictly above the LONG estimate (clamped one included) liquidates, if and only if the wallet covers the maintenance margin at the entry |
| Liquidation.ShortEstimateOneSided | backend/app/services/risk_manager.py:225-254 | every price at or beyond the SHORT estimate liquidates, if and only if the wallet covers the margin at the entry or nothing is left even at price zero |
| Liquidation.EstimateIs | backend/app/services/risk_manager.py:225-254 | the estimate times the quantity is the entry value moved by what the wallet holds beyond the requirement, clamped at zero; zero without a position |
| RiskController.ProfitReadsAsLoss | backend/app/services/risk_manager.py:321-374 | with the guard off, the verdict on a result equals the verdict on its negation |
| RiskController.ProfitableBasketStopped | backend/app/services/risk_manager.py:321-374 | a basket that is 100 up is stopped by a loss limit that its documented loss does not reach |
| RiskController.FixedLimitMeetsDocumentation | backend/app/services/risk_manager.py:321-374 | when exactly the fixed-dollar stop agrees with the documented loss |
| RiskController.PercentLimitMeetsDocumentation | backend/app/services/risk_manager.py:321-374 | when exactly the percentage stop agrees with the documented loss |
| RiskController.GuardCoversLiquidationExactly | backend/app/services/risk_manager.py:307-320 | every position past the liquidation test is past the margin guard if and only if the threshold is at most 100 percent |
| RiskController.LiquidatableIsStopped | backend/app/services/risk_manager.py:307-320 | with such a guard on, a liquidatable position is stopped whatever the rest of the configuration says |
| RiskController.LongGuardClosedExactly | backend/app/services/risk_manager.py:307-320 | a LONG margin guard never un-fires under adverse moves if and only if 100 * last rate <= threshold <= 99900 |
| RiskController.ShortGuardClosedExactly | backend/app/services/risk_manager.py:307-320 | the same for SHORT: if and only if threshold <= 99900 |
| RiskController.VerdictExactly | backend/app/services/risk_manager.py:280-375 | the verdict in amounts, for each mode and direction: the guard first and whatever the count, the loss limit only from the trigger number of safety orders on |
| RiskController.BelowTriggerKeeps | backend/app/services/risk_manager.py:324-325 | with the guard off nothing stops a basket below the trigger |
| Rounding.RoundDownLoses | backend/app/services/grid_bot.py:74-90 | a non-negative value loses less than one step and stays non-negative |
| Rounding.RoundDownOfNegative | backend/app/strategy/backtest_engine.py:501-521 | a negative value is raised, by less than one step |
| Rounding.RoundDownMono | backend/app/strategy/backtest_engine.py:501-521 | rounding keeps order for every step, zero and negative ones included |
| Rounding.RoundDownIdempotent | backend/app/services/grid_bot.py:74-90 | rounding twice is rounding once |
| GridLevels.CalculateGridLevels | backend/app/strategy/grid.py:8-116 | the loop with its running deviation produces the ladder defined level by level |
| GridLevels.GeoSumClosed | backend/app/strategy/grid.py:82-84 | the geometric sum in closed form |
| GridLevels.CumDevClosed | backend/app/strategy/grid.py:82-84 | cumulative deviation n is step_1 * (1 + s + ... + s^(n-1)) |
| GridLevels.FirstRungDistance | backend/app/strategy/grid.py:44-45 | the first rung lies exactly ATR times multiplier from the base price within the step bounds, and at the bound outside them, on either side |
| GridLevels.RungsAreGeometric | backend/app/strategy/grid.py:82-89 | rung n lies 1 + s + ... + s^(n-1) times as far away |
| GridLevels.TotalMarginClosed | backend/app/strategy/grid.py:91 | base order and n safety orders lock bo_margin * (1 + v + ... + v^n) |
| GridLevels.Step1InBounds | backend/app/strategy/grid.py:4-5 | the first step lies within its clamp bounds |
| GridLevels.LadderIsOrdered | backend/app/strategy/grid.py:82-105 | indices count 1, 2, 3, ... and prices move strictly away from the base price, down for LONG and up for SHORT |
| GridLevels.FillPricesOrdered | backend/app/strategy/grid.py:82-89 | any two rungs (the base price is rung 0) are strictly ordered |
| GridLevels.LevelValue | backend/app/strategy/grid.py:91-93 | quantity times fill price is margin times leverage wherever the fill price is positive |
| GridLevels.BaseOrderAtMostHalf | backend/app/strategy/grid.py:47-68 | the base order takes at most half the wallet in every sizing and compounding mode |
| GridLevels.BaseMarginIs | backend/app/strategy/grid.py:47-68 | the base margin in amounts for every sizing and compounding mode |
| GridLevels.GridIs | backend/app/strategy/grid.py:70-108 | target, notionals, coins and number of rungs in amounts |
| GridLevels.RungMargins | backend/app/strategy/grid.py:91 | each rung costs the volume scale times the one before |
| GridLevels.TpEarnsTarget | backend/app/strategy/grid.py:119-131 | closing at the take-profit price earns exactly the target |
| SimBasket.SimulatedBasket.ApplyFunding | backend/app/strategy/backtest_engine.py:303-336 | the loop over funding events yields the event-by-event definition |
| SimBasket.SimulatedBasket.CollectFills | backend/app/strategy/backtest_engine.py:239-250 | collects, in ladder order, exactly the unfilled levels the candle touches |
| SimBasket.SimulatedBasket.ExecuteFills | backend/app/strategy/backtest_engine.py:252-274 | fills them one after the other and returns the summed margin |
| SimBasket.SimulatedBasket.Close | backend/app/strategy/backtest_engine.py:355-375 | whole new state of a close |
| SimBasket.SimulatedBasket.ForceClose | backend/app/strategy/backtest_engine.py:345-353 | adverse slippage unless the data ended, then close |
| SimBasket.SimulatedBasket.RiskCheck | backend/app/strategy/backtest_engine.py:276-299 | peak-loss tracking and risk stop |
| SimBasket.SimulatedBasket.CheckFills | backend/app/strategy/backtest_engine.py:194-301 | one candle: funding, take-profit, fills, risk stop, and the margin reported to the wallet |
| BasketFacts.FillIs | backend/app/strategy/backtest_engine.py:252-269 | one fill in amounts, average and take-profit included |
| BasketFacts.FillKeepsBooks | backend/app/strategy/backtest_engine.py:252-269 | a fill keeps avg_entry * qty = sum of costs, margin = sum of margins, fees = taker fee on the cost |
| BasketFacts.BarKeepsBooks | backend/app/strategy/backtest_engine.py:194-301 | every candle keeps these identities and fills exactly the levels between the old and the new depth |
| BasketFacts.NewlyFilledIsNextSlice | backend/app/strategy/backtest_engine.py:239-250 | with a prefix filled, one candle fills exactly the next slice of the ladder |
| BasketFacts.FillsFollowTheExtreme | backend/app/strategy/backtest_engine.py:239-273 | over any candles the filled levels are the prefix reached by the running extreme of the candles that got to the safety orders |
| BasketFacts.FilledMeansReached | backend/app/strategy/backtest_engine.py:239-273 | level i is filled exactly when the lowest low (LONG) or highest high (SHORT) of those candles reached its price |
| BasketFacts.FundingOnlyMovesCounters | backend/app/strategy/backtest_engine.py:303-336 | funding moves two counters only; neither falls and their difference is the signed sum of the events |
| BasketFacts.EventCharges | backend/app/strategy/backtest_engine.py:303-336 | one event in the window: a LONG pays quantity times price times a positive rate and receives that of a negative one, a SHORT the other way round, the other counter stays; the middle of the candle stands in for a missing price |
| BasketFacts.CandleFunding | backend/app/strategy/backtest_engine.py:303-336 | over a whole candle paid less received moves by plus (LONG) or minus (SHORT) the quantity times the summed price times rate, on the quantity before the fills |
| BasketFacts.FundingChargedFiveTimes | backend/app/strategy/backtest_engine.py:308-312 | on one-minute bars an event is charged on the bar that holds it and the four before it, and no other |
| BasketFacts.ForcedCloseCostsSlippage | backend/app/strategy/backtest_engine.py:345-353 | a forced close exits strictly on the losing side and gives up exactly 0.05 percent of the value; only the close at the end of the data does not |
| BasketFacts.TakeProfitPaysTarget | backend/app/strategy/backtest_engine.py:267-269 | after at least one safety order a take-profit exit earns the target exactly before costs |
| BasketFacts.AverageAheadOfLadder | backend/app/strategy/backtest_engine.py:252-262 | the average entry never falls behind a level that is still unfilled |
| BasketFacts.FillMovesAverage | backend/app/strategy/backtest_engine.py:257-261 | the new average lies between the old average and the fill price |
| BasketFacts.LaterFillsPullTarget | backend/app/strategy/backtest_engine.py:267-269 | from an exact target on, every fill strictly pulls it in |
| Backtest.BacktestEngine.RoundLevels | backend/app/strategy/backtest_engine.py:1084-1091 | rounding loop: rounded levels in order, those below the minimum dropped |
| Backtest.BacktestEngine.TryOpenBasket | backend/app/strategy/backtest_engine.py:1031-1111 | opens exactly when the value-level decision does, with the same basket |
| Backtest.BacktestEngine.Settle | backend/app/strategy/backtest_engine.py:758-764 | margin and profit return to the wallet, the basket becomes a trade |
| Backtest.BacktestEngine.HoldBasket | backend/app/strategy/backtest_engine.py:706-751 | fills, margin lock, risk and age stop of one candle |
| Backtest.BacktestEngine.ProcessActive | backend/app/strategy/backtest_engine.py:704-818 | everything one candle does to the active basket, liquidation with its clamp included |
| Backtest.BacktestEngine.ProcessEntry | backend/app/strategy/backtest_engine.py:820-909 | entry after the cooldown, with the margin lock |
| Backtest.BacktestEngine.ProcessCandle | backend/app/strategy/backtest_engine.py:692-909 | one turn of the simulation loop |
| Backtest.BacktestEngine.Run | backend/app/strategy/backtest_engine.py:692-952 | the whole loop with its two breaks, and the end-of-data close |
| Backtest.StoppedStays | backend/app/strategy/backtest_engine.py:783-818 | after a break the remaining candles change nothing |
| BacktestFacts.RunConserves | backend/app/strategy/backtest_engine.py:692-952 | after every bar of every run locked margin is the active basket's margin and wallet + locked = initial capital + realised profit, save for the clamp to zero |
| BacktestFacts.FinalWallet | backend/app/strategy/backtest_engine.py:935-952 | an unliquidated run ends with the initial capital plus the profit of all trades; a liquidated one too, or at zero when that sum is negative |
| BacktestFacts.BarAddsConsumed | backend/app/strategy/backtest_engine.py:252-301 | on any ladder the margin added equals the margin reported |
| BacktestFacts.ConsumedNotNegative | backend/app/strategy/backtest_engine.py:718-720 | so the `> 0` guard of the margin lock never drops a fill |
| BacktestFacts.EntryLeavesHalf | backend/app/strategy/backtest_engine.py:1081-1082 | an opened basket costs a positive margin of at most half a positive wallet; the half-wallet rejection never fires |
| BacktestFacts.EntrySlipsAgainst | backend/app/strategy/backtest_engine.py:884-892 | with a slippage in [0.0005, 0.001] an entry of either side starts between 0.05 and 0.1 percent of its value under water |
| BacktestFacts.OpensSoundly | backend/app/strategy/backtest_engine.py:1031-1111 | an opened basket starts with clean books on a sorted ladder with costly levels |
| BacktestFacts.SurvivorsAreBacked | backend/app/strategy/backtest_engine.py:753-786 | a basket held into a candle and open after it has wallet + unrealised profit > maintenance margin >= 0 |
| BacktestFacts.RunIsSound | backend/app/strategy/backtest_engine.py:692-952 | in every run the active basket and all trades are baskets the engine opens, grown by a prefix of their ladder: quantity, margin, cost, take-profit and all fees (entry, safety orders, exit at maker or taker rate) are those sums, and the profit is settled against them |
| BacktestFacts.FinishIsSound | backend/app/strategy/backtest_engine.py:935-952 | the same for the trade closed at the end of the data |
| BacktestFacts.TakeProfitTradesPayTarget | backend/app/strategy/backtest_engine.py:218-269 | in every run every take-profit trade earns, before fees and funding, its target exactly after a safety order, and without one (target - tick*qty, target] for LONG and [target, target + tick*qty) for SHORT, with the symbol's tick |
| BacktestFacts.ActiveIsRun | backend/app/strategy/backtest_engine.py:692-952 | in every run the open basket is one the engine opened on a candle that met none, moved on by every candle since with the wallet of that candle |
| BacktestFacts.RunFillsFollowTheExtreme | backend/app/strategy/backtest_engine.py:692-952 | in every run a level of the open basket is filled exactly when the running extreme since its entry reached its price, and the books are those of that prefix |
| CandleOutcomes.TakesProfitExactly | backend/app/strategy/backtest_engine.py:214-238 | the take-profit is taken exactly when the candle goes 0.02 percent through a positive price and no safety order was filled on the candle before |
| CandleOutcomes.RiskStopsExactly | backend/app/strategy/backtest_engine.py:276-299 | the risk stop in amounts at the middle of the candle, with its exit price and the peak loss |
| CandleOutcomes.CandleOutcome | backend/app/strategy/backtest_engine.py:704-815 | every candle met with an open basket, decided in amounts: take-profit, else risk stop, else age, else liquidation, else held; reason, price, wallet, lock and stop of each |
| CandleOutcomes.EntryOutcome | backend/app/strategy/backtest_engine.py:818-912 | every candle met without one: opens exactly after four candles of cooldown, on a signal with positive ATR and a base order of the minimum size |
| CandleOutcomes.OpenedTerms | backend/app/strategy/backtest_engine.py:1031-1111 | what a freshly opened basket is: margin, coins and take-profit in whole steps of its symbol, fees, limits |
| CandleOutcomes.EveryTradeHasItsCandle | backend/app/strategy/backtest_engine.py:692-952 | every trade of every run is the outcome of one of its candles |
| CandleOutcomes.AgeTradesAreOld | backend/app/strategy/backtest_engine.py:736-749 | every trade ended by age ended on a candle at which it had been open for the configured hours, at its close with slippage |
| CandleOutcomes.OpenBasketsAreYoung | backend/app/strategy/backtest_engine.py:736-749 | after every candle of every run the open basket is younger than the limit |
| CandleOutcomes.StoppedTradesHaveTrigger | backend/app/strategy/backtest_engine.py:276-299 | with the guard off, every trade stopped by the risk controller had the trigger number of safety orders |
| CandleOutcomes.EntriesCoolDown | backend/app/strategy/backtest_engine.py:818 | in every run a basket opens at the earliest on the fifth candle after a close |
| WalletFacts.CoveredEntriesCoverRuns | backend/app/strategy/backtest_engine.py:717-720 | if every basket the engine would open is paid for in full by its wallet, then after every candle of every run the wallet covers the unfilled rungs of the open basket |
| WalletFacts.LaddersAffordableExactly | backend/app/strategy/grid.py:47-91 | no generated ladder costs more than its wallet if and only if the largest share of the base order (0.5 for a fixed size or a compounding one, the configured share up to 0.5 otherwise) times 1 + v + ... + v^N is at most 1 |
| WalletFacts.KeptMarginAtMost | backend/app/strategy/backtest_engine.py:1084-1091 | rounding and the minimum filter only lower what the ladder costs, and keep it when nothing is dropped |
| WalletFacts.AffordableRunsStayCovered | backend/app/strategy/backtest_engine.py:717-720 | under that condition the wallet covers the unfilled rungs after every candle of every run, so it is never negative while a basket is open |
| WalletFacts.ExposedExactly | backend/app/strategy/backtest_engine.py:717-786 | in any run, right after a fill, the next candle can take a non-negative wallet below zero with the basket open if and only if the wallet does not cover the unfilled rungs (LONG, or leverage of 4 and more; no risk or age stop) |
| WalletFacts.FreshExposedExactly | backend/app/strategy/backtest_engine.py:717-786 | in any run, before the first fill of a LONG whose nearest rungs leave it backed at its take-profit price, one or two candles can do so if and only if the wallet does not cover the ladder |
| WalletFacts.NegativeWalletNeedsOpenProfit | backend/app/strategy/backtest_engine.py:718-786 | whenever a candle leaves the wallet below zero with the basket open, the open profit exceeds the hole |
| WalletFacts.WalletCanGoNegative | backend/app/strategy/backtest_engine.py:717-720 | a run of two candles from a capital of 8004 that ends with the basket open and the wallet at -2001; share times ladder factor is 1.25 |
| TargetFacts.LevelBuysMore | backend/app/strategy/grid.py:86-93 | with volume_scale >= 1 every LONG rung buys at least as many coins as the base order |
| TargetFacts.FirstFillPullsExactly | backend/app/strategy/backtest_engine.py:1084-1095 | for every LONG basket the engine opens, filling a rung first strictly lowers the take-profit if and only if the rung's stored price is below the stored take-profit |
| TargetFacts.WideStepsPull | backend/app/strategy/backtest_engine.py:1084-1095 | that holds for every rung when the tick is at most stepMin times the entry price |
| TargetFacts.AverageNeverRises | backend/app/strategy/backtest_engine.py:252-262 | for every LONG basket the engine opens and any candles the average entry never rises |
| TargetFacts.TargetFallsExactly | backend/app/strategy/backtest_engine.py:239-273 | for every LONG basket the engine opens, at any volume scale: over any candles every fill strictly lowers the take-profit and nothing else moves it, if and only if the nearest rungs' coins times their distance below the stored target exceed what rounding took from the target on the base order |
| TargetFacts.NearestRungDecides | backend/app/strategy/backtest_engine.py:239-273 | with volume_scale >= 1 that condition is that the nearest rung was stored below the opening take-profit |
| TargetFacts.RunTargetsFall | backend/app/strategy/backtest_engine.py:692-952 | in every run, between any two moments at which the same LONG basket is open, its average never rose and, if the nearest rungs pull, its target fell strictly with every fill |
| TargetFacts.WideStepsAlwaysPull | backend/app/strategy/backtest_engine.py:239-273 | steps of at least one tick at the entry price guarantee it |
| TargetFacts.SameCellRaisesTarget | backend/app/strategy/backtest_engine.py:1084-1095 | a SOLUSDT basket the engine opens whose rung and target share a tick cell, and whose first fill raises the target |
| LiveMonitor.LiveBasket.RecalculateTpAfterSo | backend/app/services/grid_bot.py:1514-1595 | re-averaging, cancel and replacement, with every swallowed exception keeping what was assigned before it |
| LiveMonitor.LiveBasket.CheckVirtualSos | backend/app/services/grid_bot.py:1356-1512 | the loop with its skip, break and continue is the walk over the ladder |
| LiveMonitor.LiveBasket.MonitorOrders | backend/app/services/grid_bot.py:1080-1166 | the order loop, its break on a filled take-profit included |
| LiveMonitor.LiveBasket.CancelPending | backend/app/services/grid_bot.py:1093-1113 | cancels the other pending rows |
| LiveMonitor.LiveBasket.CancelLiveOrders | backend/app/services/grid_bot.py:1310-1335 | cancels every live row |
| LiveMonitor.LiveBasket.ForceClose | backend/app/services/grid_bot.py:1310-1354 | forced close; a refused closing order leaves the basket open with its rows canceled |
| LiveMonitor.LiveBasket.CloseGonePosition | backend/app/services/grid_bot.py:843-998 | the watchdog's close with its reason |
| LiveMonitor.LiveBasket.FindAmount | backend/app/services/grid_bot.py:796-803 | the first non-zero position amount |
| LiveMonitor.LiveBasket.FindMark | backend/app/services/grid_bot.py:1396-1410 | the first positive cached mark price, else the ticker |
| LiveMonitor.LiveBasket.FindReason | backend/app/services/grid_bot.py:884-899 | the loop over recent orders |
| LiveMonitor.LiveBasket.CheckRisk | backend/app/services/grid_bot.py:1203-1275 | peak loss and risk stop |
| LiveMonitor.LiveBasket.Monitor | backend/app/services/grid_bot.py:770-1308 | one whole tick, early returns and rollbacks included |
| MonitorFacts.BreachedArePrefix | backend/app/services/grid_bot.py:1416-1434 | on a strictly ordered ladder the breached levels form a prefix |
| MonitorFacts.TickFillsEveryBreachedLevel | backend/app/services/grid_bot.py:1356-1512 | without a refused order a tick ends with max(old sos_filled, number of breached levels): breaking at the first unbreached level misses nothing |
| MonitorFacts.GeneratedLadderCounts | backend/app/strategy/grid.py:82-105 | the generator's ladders meet the order this relies on |
| MonitorFacts.RecalculatedIsAverage | backend/app/services/grid_bot.py:1517-1545 | after re-averaging, quantity is that of the filled entry orders and average * quantity is their cost |
| MonitorLaws.RecalculatedAverages | backend/app/services/grid_bot.py:1514-1550 | the average is over the filled orders other than take-profits, priced at their price or their average fill price |
| MonitorFacts.NewTpWithinTick | backend/app/services/grid_bot.py:1545-1592 | the replacement is one live limit take-profit whose fill would earn the target to within one tick on the position |
| MonitorFacts.VirtualSosSound | backend/app/services/grid_bot.py:1416-1512 | the safety-order step keeps rows strictly ordered filled market orders, logs exactly the indices it records, and fires only past the trigger |
| MonitorFacts.TickKeepsRegular | backend/app/services/grid_bot.py:770-1308 | every tick, whatever the caches, replies and failures, keeps at most one filled row per safety order, strictly increasing and numbered up to sos_filled |
| MonitorFacts.RunsStayRegular | backend/app/services/grid_bot.py:1356-1512 | so does every run of ticks, age closes and reconciliations |
| MonitorFacts.LegacyRunsAddNoSafetyOrders | backend/app/services/grid_bot.py:1381-1394 | a basket with pre-placed safety orders keeps one row per index over every run, and the monitor sends it no safety order |
| MonitorFacts.RunsFirePastTriggers | backend/app/services/grid_bot.py:1416-1434 | over any run, failures and lost commits included, every safety order the exchange executed had the mark price past its trigger |
| MonitorFacts.FiresMeans | backend/app/services/grid_bot.py:1416-1470 | a tick sends a safety order if and only if it trades, walks the ladder, and the first level past the count that is large enough to send is breached, with all before it, and taken |
| MonitorLaws.SendsExactly | backend/app/services/grid_bot.py:1356-1512 | when exactly a tick sends safety orders, in prices, quantities and minima |
| MonitorLaws.NewRowsAreRecords | backend/app/services/grid_bot.py:1356-1512 | every safety-order row a tick adds records such a level: rounded quantity, reported price or the mark price |
| MonitorLaws.MarkPriceIs | backend/app/services/grid_bot.py:1356-1512 | the first positive cached mark price comes before the ticker's |
| MonitorLaws.SentMovesTarget | backend/app/services/grid_bot.py:1356-1595 | a tick that sends nothing leaves rows, average and quantity; one that sends ends this step with coins and average over all filled orders and a live take-profit for all of them at the rounded price for the new average |
| MonitorFacts.SafetyNetRaisesExactly | backend/app/services/grid_bot.py:1080-1180 | after the order loop the safety net raises if and only if the basket is open, no take-profit was answered FILLED, and two take-profit rows are live by the answers |
| MonitorFacts.TickAgreesExactlyWhenDurable | backend/app/services/grid_bot.py:1060-1180 | database and exchange agree on the executed safety orders after a tick if and only if it sent none, or a sibling commits, or the open orders are readable and the answers keep no two take-profits live |
| DurableRuns.AcknowledgedTickIsDurable | backend/app/services/grid_bot.py:1060-1180 | with at most one live take-profit before it, open orders readable, cancels acknowledged, ids in the replies and no UNKNOWN take-profit answered as live, a tick reaches its commit |
| MonitorFacts.DurableRunsExecuteOnce | backend/app/services/grid_bot.py:1356-1512 | over any run in which every tick that sends is durable in that sense, each safety order is executed at most once, in ladder order |
| DurableRuns.WellAnsweredRunsExecuteOnce | backend/app/services/grid_bot.py:1356-1595 | for every run whose events alone meet that condition (no row once asked in vain is later answered live) database and exchange agree and each safety order is executed at most once, in ladder order |
| MonitorFacts.UnreadableOpenOrdersExecuteTwice | backend/app/services/grid_bot.py:1060-1080 | two ticks without a readable open-order list execute safety order 1 twice and record neither |
| MonitorFacts.TickClosesOnlyWithCause | backend/app/services/grid_bot.py:774-1114 | for every cache content a tick that changes the exit reason or closes the basket does so as MANUAL_CLOSE, LIQUIDATION or ADL only at age >= 120 s with a REST read of the same tick that found no position, as TP_FILLED only on an exchange reply about a take-profit row of the basket, as RISK_STOP only with the risk controller on; failing queries close nothing |
| MonitorFacts.FlatPositionCloses | backend/app/services/grid_bot.py:791-998 | conversely, a basket past its first 120 s whose two position reads list only empty positions is closed: once, with no live row and nothing sent, TP_FILLED exactly on the exchange's word, ADL exactly when the first forced recent order is one, MANUAL_CLOSE exactly when none is forced or readable |
| MonitorFacts.GoneMeansFlat | backend/app/services/grid_bot.py:794-826 | the watchdog's condition means that both reads of the tick listed no position but empty ones |
| MonitorLaws.WatchdogExactly | backend/app/services/grid_bot.py:770-850 | the watchdog looks from two minutes on, and sees the position gone exactly when both reads list no amount |
| MonitorLaws.WatchdogCloseIs | backend/app/services/grid_bot.py:830-1060 | rows, reason and count of a basket the watchdog closes, read off the inputs |
| MonitorLaws.CacheComesFirst | backend/app/services/grid_bot.py:1065-1069 | cached positions and open orders come before those of a REST call |
| MonitorFacts.ReasonIsFirstForced | backend/app/services/grid_bot.py:884-899 | the reason is that of the first recent order that is not a plain one |
| MonitorFacts.AfterOrdersCloseKills | backend/app/services/grid_bot.py:1080-1131 | when the order loop closes any basket, every row it started with is dead, and without a pending safety order answered FILLED and replaced no row was added |
| MonitorFacts.CloseLeavesNoLiveRows | backend/app/services/grid_bot.py:770-1354 | for any basket: age closes leave no live row; monitor closes leave none but take-profits placed in the same tick for safety orders found filled, and without such a replacement none; the reconciler leaves exactly what it found |
| MonitorFacts.OrderLoopLife | backend/app/services/grid_bot.py:1080-1166 | on any basket the order loop either leaves its status, exit reason and closing alone or closes it as TP_FILLED on a FILLED (or status-less) answer about one of its take-profit rows |
| MonitorFacts.OrderLoopSound | backend/app/services/grid_bot.py:1080-1114 | without pre-placed safety orders the loop touches take-profit rows only |
| MonitorLaws.QueryAnswers | backend/app/services/grid_bot.py:472-514 | what an order query makes of a row, case by case |
| MonitorLaws.LoopLooksAt | backend/app/services/grid_bot.py:1071-1083 | which rows the order loop looks at |
| MonitorLaws.FilledTargetCloses | backend/app/services/grid_bot.py:1085-1131 | at a take-profit answered FILLED the loop closes the basket; the other rows pending at its start become CANCELED unless FILLED or CANCELED |
| MonitorFacts.RunsCloseOnce | backend/app/services/reconciler.py:57-105 | over any interleaving of monitor ticks, age closes and reconciliations of any basket the closing routine is entered once, exactly for closed baskets, and the retry counter stays zero |
| MonitorFacts.ClosedIsFinal | backend/app/services/grid_bot.py:215-249 | a closed basket stays as it is whatever follows |
| MonitorLaws.ForcedCloseIs | backend/app/services/grid_bot.py:1310-1354 | rows, status, reason and count after a forced close, refused or not |
| MonitorLaws.OtherClosersAre | backend/app/services/grid_bot.py:1310-1354 | the age check and the reconciler: whom they close, with what, and what a refused close leaves |
| MonitorFacts.RefusedRiskStopStaysOpen | backend/app/services/grid_bot.py:1203-1275 | the risk check leaves an open, marked basket if and only if safety orders are filled, the controller wants it closed, there is a sellable quantity and the closing order is refused; its live rows are then canceled |
| SafetyNet.SafetyNetPlaces | backend/app/services/grid_bot.py:1168-1201 | a tick that commits with the basket open, coins, no live take-profit, an attempt left, no risk stop and an accepted order ends with exactly one live take-profit: the reply's id, the rounded quantity, the rounded price for the new average |
| SafetyNet.NoTargetExactly | backend/app/services/grid_bot.py:1168-1201 | when exactly a committed tick leaves an open basket without a live take-profit |
| SafetyNet.AbortedTick | backend/app/services/grid_bot.py:1065-1180 | what exactly a tick leaves that cannot read the open orders or meets two live take-profits, with and without a later commit of the session |
| SafetyNet.RiskWantsExactly | backend/app/services/grid_bot.py:1203-1268 | the risk check of a tick in amounts |
| SafetyNet.TickStopsExactly | backend/app/services/grid_bot.py:1203-1300 | when exactly a committed tick stops the basket, with reason, rows, count and peak loss |
| SafetyNet.BelowTriggerNotStopped | backend/app/services/grid_bot.py:1203-1268 | with the guard off the risk check leaves a basket below the trigger as it is |
| MonitorFacts.FailedCancelLeavesTwoLive | backend/app/services/grid_bot.py:1552-1592 | replacing the one live take-profit leaves two live rows if and only if the cancel failed |
| MonitorFacts.LegacyCloseLeavesLiveTp | backend/app/services/grid_bot.py:1080-1131 | with pre-placed safety orders a tick that finds both a safety order and the take-profit filled leaves the take-profit it has just placed live |
| Replacements.CloseLeavesLiveExactly | backend/app/services/grid_bot.py:1080-1131 | when the order loop closes a basket at its only pending take-profit, a live row is left if and only if a counted safety order's new take-profit was accepted and the old one could not be canceled, or the new one cannot, or no counted one comes after it |
| Replacements.LegacyTickLeavesLiveExactly | backend/app/services/grid_bot.py:770-1131 | the same for a whole tick of a basket with pre-placed safety orders |
| Ledger.FeeService.HasFee | backend/app/services/fee_service.py:225-237 | finds a fee row of the basket if and only if there is one |
| Ledger.FeeService.DeductFee | backend/app/services/fee_service.py:190-304 | whole new state and returned row of a deduction, in the source's order of checks |
| Ledger.FeeService.CreditCommission | backend/app/services/fee_service.py:307-375 | the referrer's share on the affiliate wallet, or nothing |
| Ledger.FeeService.CreditDeposit | backend/app/services/fee_service.py:384-424 | deposit row and balance; an unknown user raises before anything is written |
| Ledger.FeeService.AdminAdjust | backend/app/services/fee_service.py:427-458 | credit or debit row by sign |
| Ledger.LedgerChains | backend/app/services/fee_service.py:190-458 | over any interleaving every row opens where its wallet was left, closes by its amount, and each wallet holds what its last row says |
| Ledger.LedgerReplays | backend/app/services/fee_service.py:190-458 | every main balance is its start plus its non-commission rows, every affiliate balance its start plus its commission rows |
| Ledger.OneFeeOverRuns | backend/app/services/fee_service.py:225-237 | at most one fee row per basket over any run, and every commission row stands right behind the fee row it shares, for the right referrer |
| Ledger.RepeatedFee | backend/app/services/fee_service.py:225-237 | repeating a deduction changes nothing if and only if the call names a basket, is refused in the first place, or leaves a positive balance below twice the profit |
| Ledger.FeeTaken | backend/app/services/fee_service.py:190-302 | when exactly a fee is taken, and its row and balance as a product; nobody else's balance moves |
| Ledger.CommissionPaid | backend/app/services/fee_service.py:307-362 | when exactly a commission is paid, and its amount at the referrer's own percentage or the default |
| Ledger.BookingIs | backend/app/services/fee_service.py:384-458 | a deposit, adjustment or charge moves exactly the user's balance by its amount and appends the row that says so; refused for an unknown user |
| Ledger.FeeLeavesHalf | backend/app/services/fee_service.py:204-252 | a fee at 0 to 100 percent costs at most that share of 500, leaves at least half of a positive balance and touches nobody else's |
| Ledger.FeesCannotDrain | backend/app/services/fee_service.py:204-252 | after any run of fees and deposits a balance b > 0 is at least b / 2^k > 0, k the number of its fees |
| Subscriptions.UserSubscription.constructor | backend/app/services/subscription_service.py:60-74 | the free subscription created on first use |
| Subscriptions.UserSubscription.Subscribe | backend/app/services/subscription_service.py:98-216 | reply and whole new state, refusals without change |
| Subscriptions.UserSubscription.Cancel | backend/app/services/subscription_service.py:222-260 | marks the period end; refused on the free plan |
| Subscriptions.UserSubscription.ProcessRenewal | backend/app/services/subscription_service.py:267-410 | reply and whole new state of a renewal in all seven cases |
| Subscriptions.UserSubscription.DowngradeToFree | backend/app/services/subscription_service.py:413-453 | the downgraded row |
| Subscriptions.RunsBillExactly | backend/app/services/subscription_service.py:120-178 | over any run and any prices each charge row belongs to one paid non-zero invoice, in order and with the negated amount, every such invoice of a positive amount has its row, and no charge makes the balance negative |
| Subscriptions.NegativePriceIsNotCharged | backend/app/services/subscription_service.py:120-178 | a subscribe at a non-zero price is invoiced with a charge row if and only if the price is positive |
| Subscriptions.OneFailedInvoicePerGrace | backend/app/services/subscription_service.py:350-410 | over any run the status is grace_period exactly when its end is set, and failed invoices are as many as grace episodes |
| Subscriptions.DowngradeWaitsThreeDays | backend/app/services/subscription_service.py:350-410 | a renewal takes a paid plan away only after a cancellation or three days after the failed invoice, still the latest |
| Subscriptions.EffectivePlanForetellsRenewal | backend/app/services/subscription_service.py:77-92 | for an unpaid grace period the effective plan is the plan the renewal leaves, except exactly when a cancelled plan is still inside it |
| Subscriptions.EffectivePlanIs | backend/app/services/subscription_service.py:77-92 | the effective plan of every subscription: active, grace, cancelled, expired, plan missing |
| Subscriptions.SubscribeIs | backend/app/services/subscription_service.py:98-216 | when exactly a subscribe is refused, and dates, invoice and charge of one that is not |
| Subscriptions.CancelIs | backend/app/services/subscription_service.py:222-260 | a cancel marks the period end and changes nothing else |
| Subscriptions.RenewalAnswers | backend/app/services/subscription_service.py:267-410 | the answer of a renewal for every balance, plan, status and time |
| Subscriptions.RenewalIs | backend/app/services/subscription_service.py:267-453 | dates, status, invoice and charge after each of the seven answers |
| Subscriptions.NoChargeAfterCancel | backend/app/services/subscription_service.py:222-293 | after a successful cancel nothing is charged or invoiced until the next subscribe |
| Subscriptions.BilledFreePlanCharges | backend/app/services/subscription_service.py:282-293 | a free plan with a price would be charged two renewals after a cancel |
| MarketData.FetchWithRetry | backend/app/services/market_data_service.py:74-99 | the retry loop answers as its try-by-try definition |
| MarketData.FetchLosesThePageWhenStarved | backend/app/services/market_data_service.py:85-99 | a non-empty page is silently lost if and only if all tries met passing problems and the last was a rate limit |
| MarketData.DeliversMeans | backend/app/services/market_data_service.py:74-99 | a request answers with its page if and only if some try is served and only passing problems come before it |
| MarketData.DownloadKlines | backend/app/services/market_data_service.py:138-160 | the paging loop terminates and equals the page-by-page definition |
| MarketData.PagedIsWindow | backend/app/strategy/backtest_engine.py:65-89 | with every page delivered, at once or after retries, the fetch is exactly the window [start, end], minus the candle at `end` in exactly the stated case |
| MarketData.FillsPagesMeans | backend/app/services/market_data_service.py:138-160 | that case counts candles in whole pages |
| MarketData.PagedIsPrefix | backend/app/services/market_data_service.py:138-160 | whatever the network does, a fetch that returns returns a prefix of the window |
| MarketData.StarvedDownloadIsEmpty | backend/app/services/market_data_service.py:147-165 | a non-empty range comes back empty if and only if its first page is starved |
| MarketData.CompactKlines | backend/app/services/market_data_service.py:166-183 | the `seen` loop and the sort give the compact form |
| MarketData.CompactIsSortedFirsts | backend/app/services/market_data_service.py:166-183 | for every list the compact form is strictly increasing and holds exactly the first candle of each open time |
| MarketData.PagedFetchIsComplete | backend/app/services/market_data_service.py:138-183 | fetch, dedup and sort: strictly increasing, every candle in [start, end), nothing outside [start, end], and when the one at `end` |
| MonthCache.YearStarts | backend/app/services/market_data_service.py:691-698 | the month arithmetic agrees with the Gregorian leap-year count |
| MonthCache.MonthStartsAre | backend/app/services/market_data_service.py:691-698 | month starts in milliseconds: Januaries by the Gregorian count, and every month of its calendar length |
| MonthCache.MonthOfIs | backend/app/services/market_data_service.py:691-698 | the month of a time is the one month whose bounds hold it |
| MonthCache.MonthsIncrease | backend/app/services/market_data_service.py:691-698 | month starts strictly increase |
| MonthCache.GetMonthRange | backend/app/services/market_data_service.py:691-698 | the loop lists the months that have begun by `end` |
| MonthCache.MonthRangeIsConsecutive | backend/app/services/market_data_service.py:691-698 | the range is exactly the consecutive months from start's to end's, each once |
| MonthCache.KlineCache.GetCachedKlines | backend/app/services/market_data_service.py:456-526 | miss, filter, dedup and sort of the cached read |
| MonthCache.KlineCache.DownloadMonth | backend/app/services/market_data_service.py:102-232 | fetch, compact and overwrite of one month; nothing written when empty or failing |
| MonthCache.KlineCache.DownloadFullRange | backend/app/services/market_data_service.py:356-453 | the loop with its skip of cached, non-current months |
| MonthCache.CachedIsWindow | backend/app/services/market_data_service.py:456-526 | with full chunks the read is exactly the candles of [start, end], although a boundary candle may sit in two chunks, and a miss exactly when there are none |
| MonthCache.CacheAgreesWithFetch | backend/app/services/market_data_service.py:456-526 | cached read and direct fetch are equal if and only if the fetch loses no end candle, and differ by that candle otherwise |
| MonthCache.DownloadedIsFullExactly | backend/app/services/market_data_service.py:119-183 | when exactly a download leaves a full month |
| MonthCache.DownloadStaysInMonth | backend/app/services/market_data_service.py:119-183 | a download never reaches past the next month's first instant nor past the present |
| MonthCache.DownloadedCacheIsComplete | backend/app/services/market_data_service.py:102-526 | a range whose months were each downloaded after they ended is read back as exactly the exchange's candles |
| MonthCache.FullMonthsExactly | backend/app/services/market_data_service.py:356-453 | after any sequence of full-range downloads from the empty cache a month is cached if and only if some call served it, and full if and only if the last call that served it while it was running, if any, came when nothing more was to come |
| MonthCache.DownloadedRangeReadsBack | backend/app/services/market_data_service.py:356-526 | a range whose months all end up so is read back as exactly the exchange's candles |
| MonthCache.PastChunkStays | backend/app/services/market_data_service.py:418-431 | a cached month that is no longer current is never downloaded again |
| MonthCache.EarlierChunkWins | backend/app/services/market_data_service.py:494-523 | of two versions of a boundary candle the read returns the earlier chunk's |
| RateLimit.RateLimiter.Check | backend/app/core/rate_limit.py:21-34 | decision and new store of one check; other keys untouched |
| RateLimit.LiveIsRecent | backend/app/core/rate_limit.py:28-31 | what a check finds on record is exactly the attempts, denied ones included, of its window |
| RateLimit.ExpiryIsInvisible | backend/app/core/rate_limit.py:31 | key expiry changes no decision and no record |
| RateLimit.KeysAreIndependent | backend/app/core/rate_limit.py:21-34 | what the store holds for a key is what that key's own calls have left |
| RateLimit.WindowBound | backend/app/core/rate_limit.py:21-34 | with strictly increasing times any stretch shorter than the window holds at most max_requests allowed calls |
| RateLimit.HalfOpenBound | backend/app/core/rate_limit.py:21-34 | so does every half-open interval of one window, open on either side |
| RateLimit.SameInstantEscapes | backend/app/core/rate_limit.py:30 | any number of calls at one instant is allowed if and only if max_requests >= 2 |
| RateLimit.SingleRequestBound | backend/app/core/rate_limit.py:21-34 | for max_requests <= 1 the bound survives equal times |
| TokenRefresh.ApiClient.HandleUnauthorized | frontend/lib/api.ts:78-96 | a 401 queues or starts the refresh |
| TokenRefresh.ApiClient.SettlePending | frontend/lib/api.ts:113-124 | the queue is drained in order and cleared |
| TokenRefresh.ApiClient.FinishRefresh | frontend/lib/api.ts:98-134 | everything after the refresh call comes back, in its three ways |
| TokenRefresh.RefreshIsSingleFlight | frontend/lib/api.ts:85-96 | in every interleaving at most one refresh is in flight, the flag says so, and nobody waits while it is down |
| TokenRefresh.RequestsAreConserved | frontend/lib/api.ts:78-134 | counted with multiplicity, requests that met a 401 are those settled, waiting or refreshing |
| TokenRefresh.QuietMeansAllSettled | frontend/lib/api.ts:78-134 | with no refresh under way each such request has been settled exactly once, hence retried at most once |
| TokenRefresh.OutcomesFollowReplies | frontend/lib/api.ts:98-134 | the settlements are those read off the order of 401s and replies: all waiters alike, the leader with them except for a thrown error; expired events are the replies that were not ok |
| TokenRefresh.RoundOutcomes | frontend/lib/api.ts:98-134 | each request of a round: retried on an ok reply, else rejected as expired, except the leader of a refresh that threw an Error, which gets it |
| TokenRefresh.OneRefreshServesAll | frontend/lib/api.ts:85-118 | any burst of 401s before one ok reply costs one refresh and retries all of them |

## Left out

- Floating-point error, `round(x, 8)` and the Decimal conversions: all arithmetic is exact; prices, margins and balances are reals.
- TargetFacts.TargetFallsExactly: is about LONG baskets, positive steps and a positive target share; SHORT ladders are rounded towards the market, so a rung can lie on the winning side of the entry.
- WalletFacts.AffordableRunsStayCovered: like every lemma that asks for `Tuned` it assumes a leverage of at least 1 and positive steps, which backend/app/api/v1/endpoints/admin/backtest.py:30-60 validates; the other caller of the engine, backend/app/services/gemini_agent.py:247-315, passes leverage, steps and scales on unchecked.
- WalletFacts.ExposedExactly: is not stated for a candle that still checks the take-profit (two or more candles after a fill), nor with a risk or age stop, which may close the basket first; for a SHORT it asks for a leverage of 4, below which rounding can leave a rung worth less than its margin.
- Signals, ATR, trend filter and the lookback check: each candle carries an arbitrary signal; the entry slippage is an arbitrary number, not only one in [0.0005, 0.001].
- Checks before the simulation loop (enough candles, a base order above the exchange minimum) and the loading of its data: they end the run before it starts.
- Report values of the backtest (equity curve, drawdown, Sharpe, trade events, JSON rounding): they are read by nothing in the loop.
- The locals of the simulation loop are fields of `BacktestEngine`, because its branches are separate methods here.
- Database sessions: `LiveBasket.Restore` stands for the rollback of a tick that raised; whether a later basket of the same session commits is an input of the tick.
- The part of `_monitor_basket` that estimates profit for notifications, and the profit attribution of `_finalize_basket`: the closing routine is a counter; the profit it hands to the fee deduction is arbitrary in `Ledger`.
- MonitorFacts.TickAgreesExactlyWhenDurable: is about baskets without pre-placed (legacy) safety-order limit orders; with them the monitor executes nothing itself (`LegacyRunsAddNoSafetyOrders`).
- Parallel ticks of one account (two workers): ticks are sequential.
- Recovery baskets and orphan positions of `process_tick`, and orphan positions of the reconciler: they create or report rows and close nothing.
- Entry gates (`check_balance_gate`, cooldown, daily loss, account limits) and `calculate_minimum_balance`: each reads a few values and compares.
- `get_fee_percentage` with its three sources: every operation takes its percentage as an input.
- The `AffiliateCommission` table, transfers and withdrawals of the affiliate balance: rows besides the ledger.
- Clearing `fee_percentage_override` on a downgrade, audit rows, e-mails: no effect on the modelled state.
- Administrative plan assignment: subscriptions change through the four modelled operations only, and plan prices stay fixed during a run.
- The scheduler that calls `process_renewal` is not part of the repository; renewals may come at any time.
- Values of a candle that is still forming when it is downloaded: the exchange's record is one fixed history (`EarlierChunkWins` shows the effect at a month boundary).
- Texts of month labels ("YYYY-MM"): months are numbers from January 1970 on, and chunks are ordered by number.
- Funding-rate downloads, gap fixing and cache statistics: same loops over other rows.
- Redis pipelines are atomic here, and Redis measures expiry with the caller's clock.
- Server-side rendering branch of `handleUnauthorized`: it repeats the request without a refresh.
- A second 401 of a retried request: `handleUnauthorized` returns it to the caller, so it never re-enters the protocol.
