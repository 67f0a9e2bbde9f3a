# CandlePilot: a verified model of its replay, its verdicts and its order protocol

This project models four parts of CandlePilot and proves what they are for.

**The backtest exchange and its replay clock.** `Exchange.SimulatedExchange` keeps cash, average-cost
positions, scheduled and resting orders, trades and a pruned 24-hour equity window, and changes them
in place. `Runner.BacktestRunner` drives it over a schedule of decision batches, with one settlement
cursor per symbol and a saved copy for the day a provider dies. Every method is proved to compute a
function of the old state (`Bookkeeping`, `EquityWindow`, `Replay`), and the laws are proved about
those functions over whole runs: conservation of money, agreement with a plain blotter of fills, no
look-ahead, rollback as truncation, exactly-once settlement, and a clock that never runs backwards.
The provider and the risk policy are arbitrary functions of the portfolio they are shown; the
snapshots they also see are held fixed when two histories are compared, and `Snapshots` proves apart
when a snapshot rebuilt from history needs no bar that is still open.

**The outcome machines.** `Outcomes` and `Rejected` read bars, return a verdict or "ambiguous", and
refine ambiguous five-minute bars with minutes. A verdict that is not ambiguous is shown to be the
verdict of every tick path consistent with the bars; ambiguity is shown to be genuine, with one
exception; the refinement loops are shown to end. `Performance` agrees with the verdicts.

**The live protocol.** `DecisionRoute` is the retry loop with its audit, `OrderGate` the order gate
under every interleaving of decisions, pending entries and stops, `SymbolLocks` the lock protocol.
The last two are transition systems whose steps lie between two awaits.

**The `.env` file.** `EnvFile` reads and rewrites it; rewriting and reading again is a map update,
with the exact condition under which it is.

Prices and money are reals, instants are integer milliseconds. Laws that do not hold everywhere are
stated with the exact condition under which they do, and `Boundaries`, `LateEntry`, `StaleCurve`,
`LostRecords`, `Snapshots.QuarterPastLooksAhead`, `EnvRewriteLaws.StaleDuplicateWins` and
`EnvStableLaws.BrokenValueGrows` give the inputs on which they fail.

## Where the code and its description differ

- A reduce-only order that finds no position pays its fee although no trade carries it
  (`LedgerLaws.ExecuteKeepsIdentityIff`, `Boundaries.StrayReduceOnlyBreaksIdentity`).
- A snapshot rebuilt from history promises to read closed bars only, but between two half hours its
  24-hour volume counts the 30-minute bar that is still open
  (`Snapshots.NeedsNoFutureIff`, `Snapshots.QuarterPastLooksAhead`).
- An opening order against a held position is averaged into it
  (`BlotterLaws.FillRefinesBlotterIff`, `Boundaries.OpposedOrderBreaksBlotter`).
- The reported final equity stops at 1e-8 while the per-symbol figures do not
  (`Summary.SummaryReconcilesIff`, `Boundaries.FloorBreaksReconciliation`).
- A schedule that reaches past the end of the window can make the close-out raise "trade exit cannot
  precede its entry" (`ClockLaws.CloseOutIsTimelyIff`, `LateEntry.LateEntryStopsTheCloseOut`). Only a
  recorded schedule can do so, and the one shipped caller widens the window past its last snapshot
  (src/candlepilot/api.py:3302-3305), so this concerns direct users of the runner.
- An active plan whose bar holds both targets but neither entry nor stop is called ambiguous although
  every order inside the bar ends at the second target
  (`OutcomeLaws.AmbiguousIff`, `Boundaries.BothTargetsAreCalledAmbiguous`).
- With one key on two lines of `.env`, the first is rewritten and the last is read
  (`EnvLaws.ReadAfterWriteIff`, `EnvRewriteLaws.StaleDuplicateWins`).
- A stored value with a line break inside, or a key its own line does not carry, makes a repeated
  rewrite of `.env` grow the file (`EnvStableLaws.WriteIsIdempotentIff`,
  `EnvStableLaws.BrokenValueGrows`).
- The rollback restores the account but not the equity curve: points reported for decisions without a
  snapshot after the last answer stay, and drawdown is computed over them
  (`CurveLaws.RolledBackCurveIff`, `StaleCurve.RollbackKeepsLatePoint`).
- The inference audit of the decisive batch is complete only if no evaluation before its last result
  raises and no result lacks its rules; a failure while the portfolio is completed, or an unknown
  provider, loses the failed batches (`DecisionRoute.TradingEngine.EvaluateBatch`,
  `LostRecords.FaultLosesRecord`, `LostRecords.ContextLosesFailedBatch`).

## Model

| member | source | states |
|---|---|---|
| Exchange.SimulatedExchange.FromPortfolio | src/candlepilot/backtest/engine.py:144-191 | a recorded account is accepted exactly when its equity is the configured one; cash is the equity less the carried PnL, every position enters at the start with its PnL carried |
| Exchange.CarriedIsBalanced | src/candlepilot/backtest/engine.py:158-191 | an account carried in from a recording satisfies the ledger identity from the first instant |
| Exchange.SimulatedExchange.DeepCopy | src/candlepilot/backtest/runner.py:462 | the saved exchange is a fresh object with the same state, so later fields of the original do not reach it |
| Exchange.SimulatedExchange.Value | src/candlepilot/backtest/engine.py:193-215 | the loop over positions yields total unrealized PnL, total margin and one view per position, a missing mark falling back to the entry price |
| Exchange.SimulatedExchange.PortfolioStateAt | src/candlepilot/backtest/engine.py:193-252 | the pruned window answers like the full history: the 24-hour PnL is equity less the last sample at or before 24 hours ago among all samples ever taken; an earlier instant is refused and changes nothing |
| EquityWindow.SampleKeepsWindow | src/candlepilot/backtest/engine.py:216-243 | recording and pruning keeps the window equal to the tail of the complete history from its 24-hour reference, including a second sample at the same instant |
| EquityWindow.ReferenceIsLastOld | src/candlepilot/backtest/engine.py:231-243 | the reference of the full history is its last sample at or before the cutoff, or its first when none is that old |
| Exchange.SimulatedExchange.Execute | src/candlepilot/backtest/engine.py:264-314 | the method leaves the state of Bookkeeping.Execute and its report; what that keeps is LedgerLaws.ExecuteKeepsIdentityIff, when it may fill is ClockLaws.SettleNextBar |
| Exchange.SimulatedExchange.ActivateScheduled | src/candlepilot/backtest/engine.py:316-329 | the method leaves the state of Bookkeeping.ActivateScheduled; what that keeps is LedgerLaws.ActivateBacking |
| Exchange.SimulatedExchange.Fill | src/candlepilot/backtest/engine.py:331-361 | the method leaves the state of Bookkeeping.Fill; its price is TriggerLaws.FillIsNeverFlattering, its effect on money LedgerLaws.FillBacking and BlotterLaws.FillRefinesBlotterIff |
| Exchange.SimulatedExchange.OpenOrAdd | src/candlepilot/backtest/engine.py:363-396 | the method leaves the state of Bookkeeping.OpenOrAdd; what that means is LedgerLaws.AdditionAddsUp |
| LedgerLaws.AdditionAddsUp | src/candlepilot/backtest/engine.py:363-396 | an addition adds quantities, costs and fees, takes the new leverage and keeps the triggers that the order does not replace; it fails exactly for a first order without a stop |
| Exchange.SimulatedExchange.Book | src/candlepilot/backtest/engine.py:407-455 | the method leaves the state of Bookkeeping.Book; what that means is LedgerLaws.BookSplits and LedgerLaws.BookBacking |
| LedgerLaws.BookSplits | src/candlepilot/backtest/engine.py:407-455 | a full or partial close loses and doubles nothing: quantity, fees, funding and carried PnL are split between the trade and what stays open, and a cooldown starts exactly after a losing protective exit |
| Exchange.SimulatedExchange.SettleCandle | src/candlepilot/backtest/engine.py:457-522 | funding first, then the protective triggers, then the resting order, whose own triggers are guarded in the same bar |
| Exchange.SimulatedExchange.CloseAll | src/candlepilot/backtest/engine.py:544-558 | every open position is closed at its mark or entry price, all orders are cancelled and counted |
| LedgerLaws.BookBacking | src/candlepilot/backtest/engine.py:407-455 | booking any part of a position moves exactly the exit fee: cash, open costs and trade PnL keep balancing |
| LedgerLaws.FillBacking | src/candlepilot/backtest/engine.py:331-405 | every fill keeps the ledger identity, except that a reduce-only fill without a position loses exactly its fee, which adds to the fees that no trade carries |
| LedgerLaws.ExecuteKeepsIdentityIff | src/candlepilot/backtest/engine.py:264-314 | executing an order keeps the identity if and only if it is not a chargeable reduce-only fill without a position |
| LedgerLaws.ActivateBacking | src/candlepilot/backtest/engine.py:316-329 | activation of a scheduled order always keeps the identity |
| LedgerLaws.SettleKeepsIdentity | src/candlepilot/backtest/engine.py:457-522 | settling a bar keeps cash plus open carried PnL equal to initial equity plus trade net PnL less open costs |
| LedgerLaws.FlatCashIsNetPnl | src/candlepilot/backtest/engine.py:544-558 | after the close-out nothing is open and cash is initial equity plus the net PnL of all trades |
| BlotterLaws.AverageCost | src/candlepilot/backtest/engine.py:375-396 | averaging the entry price of an addition leaves its value unchanged at every mark |
| BlotterLaws.FillRefinesBlotterIff | src/candlepilot/backtest/engine.py:331-405 | the average-cost accounts keep agreeing with a plain blotter of fills, fees and funding at all prices if and only if the order opens or adds on the held side or reduces on the other |
| BlotterLaws.CloseAtGap | src/candlepilot/backtest/engine.py:407-455 | a protective or final close changes equity at every price exactly as its blotter line says |
| BlotterLaws.FundingGap | src/candlepilot/backtest/engine.py:457-467 | charged funding changes equity exactly as its blotter line says |
| BlotterLaws.BookedValueIsEquity | src/candlepilot/backtest/engine.py:196-215 | at marks that cover the open positions the value compared with the blotter is the reported equity |
| AccountLaws.SubmissionStrays | src/candlepilot/backtest/engine.py:264-405 | a submitted order charges a fee that no trade carries only if it fills at once, and then exactly the fee of its stray reduce-only fill |
| AccountLaws.SettlementNeverStrays | src/candlepilot/backtest/runner.py:386-408 | settling any symbols through any instant charges no such fee: activation and resting fills are guarded |
| AccountLaws.RunningConservesCash | src/candlepilot/backtest/runner.py:503-683 | after any number of batches, whatever the policy orders, the cash identity has moved by exactly the fees that no trade carries, and not at all if no reduce-only order is decided without a position |
| AccountLaws.RunningRefinesBlotter | src/candlepilot/backtest/runner.py:503-683 | if orders on a held symbol open on its side and reduce on the other, the equity after any number of batches, at any marks covering the open positions, has moved by what the blotter of fills, fees and funding alone gives |
| AccountLaws.ReplayConservesCash | src/candlepilot/backtest/runner.py:410-700 | over any whole replay, rolled back or not and whatever the policy orders, final cash is initial equity plus all trade net PnL less the fees that no trade carries; there are none if no reduce-only order is decided without a position |
| AccountLaws.ReplayRefinesBlotter | src/candlepilot/backtest/runner.py:410-700 | if orders on a held symbol open on its side and reduce on the other, final cash is what the blotter alone gives, whatever prices its fills are valued at |
| Reconciliation.ReplayReconcilesIff | src/candlepilot/backtest/engine.py:544-624 | end to end from schedule to report, whatever the policy orders: reported net PnL is the sum of the per-symbol net PnLs, and gross less costs, if and only if reported equity is final cash plus the fees that no trade carries; if no reduce-only order is decided without a position, if and only if final cash is not below the equity floor |
| Reconciliation.StartIsSound | src/candlepilot/backtest/engine.py:144-191 | a fresh account and one carried in from a recording both balance and satisfy the clock invariant at the start |
| Reconciliation.DeliveredReportIsSound | src/candlepilot/backtest/runner.py:431-700 | from either real start: no clock error in any batch, and the delivered report reconciles under exactly that condition |
| TriggerLaws.FillIsNeverFlattering | src/candlepilot/backtest/engine.py:257-259 | slippage is paid and never earned, up to the order's own limit |
| TriggerLaws.BarVerdictIsWorstPath | src/candlepilot/backtest/engine.py:524-542 | for every price path inside a bar, the trigger the bar books is no better than the one the path meets, and one is booked exactly when the path meets one |
| TriggerLaws.WorstPathExists | src/candlepilot/backtest/engine.py:524-542 | the bar's verdict is attained: some path inside the bar meets exactly that trigger |
| TriggerLaws.EntryBarVerdictIsWorstPath | src/candlepilot/backtest/engine.py:492-522 | in the bar of a resting fill a booked stop is met after the entry on every path, and what is withheld can only be a target |
| TriggerLaws.EntryBarTargetIsAmbiguous | src/candlepilot/backtest/engine.py:492-522 | withholding the target there is necessary: the same bar has a path that takes it after the entry and one that does not |
| Summary.Summarize | src/candlepilot/backtest/engine.py:561-624 | the loops compute each figure as a sum, quotient or maximum over trades and curve, defined for no trades and zero equity |
| Summary.DrawdownIsWorstDecline | src/candlepilot/backtest/engine.py:572-581 | for positive equity the running-peak loop yields the largest relative decline from any point of the list to a later one, and it is attained; list order is time order unless the run was rolled back |
| Summary.BreakdownReconciles | src/candlepilot/backtest/engine.py:583-606 | per-symbol net PnLs add up to the net PnL of all trades |
| Summary.SummaryReconcilesIff | src/candlepilot/backtest/engine.py:561-624 | reported net PnL reconciles with the breakdown and with gross less costs if and only if reported equity is the cash plus the fees that no trade carries; without such fees, if and only if cash is not below the floor |
| Runner.DecisionTimes | src/candlepilot/backtest/runner.py:309-321 | exactly the aligned instants after the start and up to the end, ascending |
| Replay.ClosedBy | src/candlepilot/backtest/runner.py:378-408 | the bisected count: all counted bars have closed by the instant and the next one has not |
| Runner.BacktestRunner.SettleUntil | src/candlepilot/backtest/runner.py:386-408 | settles the next slice of one symbol's bars, each after activating what is due at its open, advances the cursor and extends the log of settled bars without gap or repetition |
| Runner.BacktestRunner.AskProvider | src/candlepilot/backtest/runner.py:543-581 | the first answer of the right size within the allowed attempts, or none |
| Runner.BacktestRunner.RunBatch | src/candlepilot/backtest/runner.py:503-683 | one batch of the replay, ending in a new saved copy or, on provider failure, in the previously saved exchange |
| Runner.BacktestRunner.Run | src/candlepilot/backtest/runner.py:431-700 | the imperative runner delivers the replay function's ledger, curve and cancellations, or stops with its error; its log of settled bars is, per symbol, one contiguous run of the history without repetition, a bar being in it if and only if it opens at or after the start and closes by a visited instant |
| ClockLaws.SettleNextBar | src/candlepilot/backtest/runner.py:401-407 | a scheduled order is activated before the bar it fills in is settled, and every position charged or closed in a bar was entered by its open |
| ClockLaws.SettleUntilIsOnTime | src/candlepilot/backtest/runner.py:386-408 | settling through an instant leaves no closed bar unsettled, no due order unactivated and no position entered later than that instant |
| ClockLaws.ReplayIsTimely | src/candlepilot/backtest/runner.py:503-683 | for every schedule from the start on and every provider and policy, no batch ever raises "exit cannot precede entry" or "time cannot move backwards" |
| ClockLaws.CloseOutIsTimelyIff | src/candlepilot/backtest/runner.py:685-700 | the close-out raises if and only if a position was entered after the effective end; never after a rollback and never when the last batch is due by the end |
| LateEntry.LateEntryStopsTheCloseOut | src/candlepilot/backtest/runner.py:685-700 | a complete replay of a recorded schedule, with its bars, orders and answers, whose close-out raises |
| LookAheadLaws.NoLookAhead | src/candlepilot/backtest/runner.py:373-408 | two inputs that agree on all bars closed by T and on the opens known by T, shown the same snapshots, give the same account after every prefix of batches up to T; only the price inside a not yet activated order may differ |
| LookAheadLaws.ResultNeedsNoFuture | src/candlepilot/backtest/runner.py:685-700 | and the same flattened result, or the same error |
| Snapshots.HistoricalSnapshotBuilder.FromSeries | src/candlepilot/backtest/snapshots.py:97-125 | a history is refused exactly when it lacks an interval, and the stored totals are the volumes of all prefixes |
| Snapshots.HistoricalSnapshotBuilder.QuoteVolume24h | src/candlepilot/backtest/snapshots.py:173-178 | the difference of two running totals is the volume of the bars that opened in the last 24 hours |
| Snapshots.HistoricalSnapshotBuilder.Build | src/candlepilot/backtest/snapshots.py:130-171 | the loop over the intervals yields the latest closed bars of each, mark and funding rate of the last closed bar of the cadence, or the first interval with too few bars |
| Snapshots.NeedsNoFutureIff | src/candlepilot/backtest/snapshots.py:85-178 | a snapshot that is built is the same for all histories with the same closed bars if and only if it is due on a half hour |
| Snapshots.QuarterPastLooksAhead | src/candlepilot/backtest/snapshots.py:173-178 | forty quiet days whose snapshot for a quarter past is built and is another one under another future |
| RollbackLaws.RollbackIsTruncation | src/candlepilot/backtest/runner.py:583-597 | when the provider dies for good the flattened account equals that of running only the batches up to the last answered one and closing out at its instant |
| CurveLaws.RolledBackCurveIff | src/candlepilot/backtest/runner.py:469-479 | the curve of a run that died in batch k begins with the curve of the kept batches, and is that curve (or the one point of the start) if and only if every decision without a snapshot from then up to batch k was due at the effective end |
| StaleCurve.RollbackKeepsLatePoint | src/candlepilot/backtest/runner.py:533-538 | a complete replay of an older and a newly listed symbol whose rolled-back curve has a point after the effective end |
| SettlementLaws.FinalCursor | src/candlepilot/backtest/runner.py:386-408 | after all batches and the final settlement, rolled back or not, each symbol's cursor stands behind exactly the bars closed by a visited instant |
| SettlementLaws.EachBarSettledOnce | src/candlepilot/backtest/runner.py:503-517 | hence over a whole run each bar that opens at or after the start and closes by a visited instant is settled once, in order, and no other |
| Funding.BuildBacktestCandles | src/candlepilot/market/history.py:21-52 | one candle per row with the summed rates of its events; an unknown interval is refused |
| Funding.BarOwnsHalfOpenInterval | src/candlepilot/market/history.py:35-39 | an aligned bar owns exactly the events after its open up to and including its close |
| Funding.FundingIsChargedOnce | src/candlepilot/market/history.py:30-51 | over contiguous bars the bar rates add up to the event rates after the first open and up to the last close |
| Funding.EventHasOneBar | src/candlepilot/market/history.py:35-39 | every event in that span lies in one bar and in no other |
| FundingLaws.FundingIsNeverRetroactive | src/candlepilot/backtest/engine.py:457-467 | at every bar any batch of any replay settles, the position being charged was entered before every funding event of that bar |
| FundingLaws.LastFundingIsNotRetroactive | src/candlepilot/backtest/runner.py:688-690 | the same for the settlement that completes a run |
| Outcomes.OutcomeState.EvaluateBar | src/candlepilot/analysis/outcomes.py:76-199 | the in-place machine takes the step of the specification, for both directions and all three phases |
| Outcomes.EvaluateOutcome | src/candlepilot/analysis/outcomes.py:214-262 | the loops over bars and their minutes yield the specified verdict, count and refinement note |
| Outcomes.EvaluateFromMarket | src/candlepilot/analysis/outcomes.py:294-378 | the refinement loop ends within one pass per five-minute window plus one, and leaves a verdict ambiguous only where minutes are used up or incomplete |
| OutcomeLaws.BarVerdictHoldsOnPaths | src/candlepilot/analysis/outcomes.py:76-199 | what one bar decides without ambiguity is decided by every tick path touching the same levels |
| OutcomeLaws.VerdictHoldsOnEveryPath | src/candlepilot/analysis/outcomes.py:214-262 | a non-ambiguous verdict on any number of bars is that of every tick path, for long and short plans in contract order |
| OutcomeLaws.AmbiguousIff | src/candlepilot/analysis/outcomes.py:76-199 | a bar is called ambiguous if and only if two tick paths through it disagree, or an active plan's bar holds both targets but neither entry nor stop; in that last case all paths reach the second target |
| OutcomeLaws.RefiningMovesForward | src/candlepilot/analysis/outcomes.py:326-378 | with and without new minutes for a window, the machine reaches its bar in the same state, or is decided earlier in both cases |
| OutcomeLaws.EachPassMovesForward | src/candlepilot/analysis/outcomes.py:326-378 | each pass ends the loop or finds its ambiguity in a strictly later bar |
| OutcomeLaws.ResolvedStaysResolved | src/candlepilot/analysis/outcomes.py:229-243 | appended bars do not change a resolved verdict |
| Rejected.EvaluateRejected | src/candlepilot/analysis/rejected_outcomes.py:131-287 | the counterfactual machine over bars and minutes, with its expiry before and after the last bar |
| Rejected.EvaluateRejectedFromMarket | src/candlepilot/analysis/rejected_outcomes.py:330-369 | the loop ends within one pass per main bar plus one, fetching each window once |
| Rejected.EntryIsWithinTtl | src/candlepilot/analysis/rejected_outcomes.py:144-287 | a reported entry of a limit decision comes from a bar that reached the limit and closed no later than evaluation plus time to live |
| Rejected.CounterfactualHoldsOnPaths | src/candlepilot/analysis/rejected_outcomes.py:144-287 | a non-ambiguous counterfactual is that of every tick path of the evaluated bars; each tick is dated at the close of its bar, where the expiry is judged |
| Rejected.RejectedAmbiguousIff | src/candlepilot/analysis/rejected_outcomes.py:144-287 | a counterfactual bar is called ambiguous if and only if two tick paths through it disagree, or the touched limit lies on the stop or the target itself |
| Performance.VerdictFixesMultiple | src/candlepilot/analysis/performance.py:24-69 | a stop is exactly -1R, the second target (r1+r2)/2 and breakeven after the first r1/2, with the plan's own reward-to-risk ratios |
| Performance.FiguresAgreeWithVerdicts | src/candlepilot/analysis/performance.py:91-157 | for contract-valid plans the sign-based wins and losses are the verdict counts, breakevens are 0 and entered plans equal settled trades |
| DecisionRoute.TradingEngine.Candidates | src/candlepilot/application/engine.py:1280-1301 | the routes not cooling down, or else the single one that recovers first |
| DecisionRoute.TradingEngine.EvaluateBatch | src/candlepilot/application/engine.py:1266-1431 | bounded rounds, failure count within the limit and 0 after success, decisions in input order from the last attempt; the audit holds every failed batch and the decisive batch up to the first result that lacks its rules, or up to and including the first whose evaluation raises, with the exact condition for completeness; what an unknown provider, a failed refresh, a failed portfolio completion and failed replay inputs leave is stated too |
| LostRecords.FaultLosesRecord | src/candlepilot/application/engine.py:1424-1430 | a batch of two symbols whose first evaluation raises: the audit holds one record of two |
| LostRecords.ContextLosesFailedBatch | src/candlepilot/application/engine.py:1326-1330 | a batch of two symbols that fails in the first round while completing the portfolio for the second raises: the audit stays empty |
| DecisionRoute.RecordsAreExactlyOnce | src/candlepilot/application/engine.py:1466-1475 | record a*m+i is that of snapshot i of attempt a, and there are no other records |
| OrderGate.EveryCallPassedTheGate | src/candlepilot/application/engine.py:823-956 | in every interleaving each broker call was made while running, unlocked and not stopping, with a decision accepted, not pending and not shadow-only, and no inference is submitted twice |
| OrderGate.ShadowIsNeverSubmitted | src/candlepilot/application/engine.py:701-808 | once stored as shadow-only, an inference is never submitted, whatever later risk evaluations return |
| OrderGate.NothingAfterEmergencyStop | src/candlepilot/application/engine.py:473-534 | after an emergency stop nothing is submitted until the lock is lifted, even if a start under way completes |
| SymbolLocks.Canonical | src/candlepilot/application/scheduler.py:353-398 | de-duplicating and sorting keeps exactly the given symbols, each once, ascending |
| SymbolLocks.ScriptIsDisciplined | src/candlepilot/application/scheduler.py:397-415 | cycles, guard passes and single evaluations ask for locks in ascending order and release all they take |
| SymbolLocks.StepKeepsInv | src/candlepilot/application/scheduler.py:242-297 | every step, including a cancellation, keeps each lock with at most one holder and its flag up exactly while held |
| SymbolLocks.NoDeadlock | src/candlepilot/application/scheduler.py:394-415 | in every reachable state with an unfinished task some task can take its next lock operation |
| SymbolLocks.EveryRunFinishes | src/candlepilot/application/scheduler.py:394-415 | every run is finite, and one that cannot go on has finished all tasks, freed all locks and emptied the queues |
| SymbolLocks.DecidingCyclesAreDisjoint | src/candlepilot/application/scheduler.py:394-415 | two cycles that analyse at the same time never share a symbol |
| EnvFile.ReadEnvFile | src/candlepilot/settings_file.py:152-173 | the loop yields the map in which later lines win |
| EnvFile.WriteEnvFile | src/candlepilot/settings_file.py:188-219 | the loops yield the rewritten lines followed by the settings without a line |
| EnvLaws.FormatReadsBack | src/candlepilot/settings_file.py:176-185 | a written line reads back as its key with the value stripped and unquoted |
| EnvLaws.LinesOfWritten | src/candlepilot/settings_file.py:205-214 | the written text splits into the same lines, up to trailing blank ones |
| EnvLaws.ReadAfterWriteIff | src/candlepilot/settings_file.py:188-214 | for plain names as keys, reading after writing is a map update if and only if the new values are one line each and every updated key stands on at most one line or already had its value |
| EnvStableLaws.StoreIff | src/candlepilot/settings_file.py:188-214 | for any distinct keys and any values whatever, with each key on at most one line, storing the settings and reading is a map update if and only if every key is a plain name and every value one line |
| EnvRewriteLaws.WriteTouchesOnlyFirstLines | src/candlepilot/settings_file.py:197-206 | for any distinct keys, a line changes only when it is the first with an updated key; all others, comments included, keep place and text; new keys follow in order |
| EnvStableLaws.WriteIsIdempotentIff | src/candlepilot/settings_file.py:188-214 | for any distinct keys, storing the same settings twice leaves the file as storing them once if and only if each setting's line is a single one that carries its key |
| EnvStableLaws.BrokenValueGrows | src/candlepilot/settings_file.py:176-185 | a value with a line break inside, which changes every file again when it is stored again |
| EnvRewriteLaws.StaleDuplicateWins | src/candlepilot/settings_file.py:197-206 | a file with one key on two lines on which reading back gives the stale value |
| Boundaries.StrayReduceOnlyBreaksIdentity | src/candlepilot/backtest/engine.py:331-405 | a concrete reduce-only order without a position after which the ledger no longer balances |
| Boundaries.OpposedOrderBreaksBlotter | src/candlepilot/backtest/engine.py:363-396 | a concrete opening order against a short position after which accounts and blotter disagree |
| Boundaries.FloorBreaksReconciliation | src/candlepilot/backtest/engine.py:561-624 | the summary of one trade that lost more than the initial equity does not reconcile |
| Boundaries.BothTargetsAreCalledAmbiguous | src/candlepilot/analysis/outcomes.py:121-132 | a concrete bar called ambiguous although all its tick paths end at the second target |

## Left out

- Decimal arithmetic with 28 digits and binary floats: prices, quantities and money are exact reals.
- Checks on missing or naive timestamps, volumes, identifiers, message texts, token and cost counters, progress estimates.
- Positions are values in a map field that is reassigned, so two names for one position object are not modelled.
- The order in which the dictionary of positions is walked at the close-out is a parameter; it is arbitrary there.
- The symbol breakdown of the summary is keyed, not sorted for display.
- The state of an exchange after it has raised is not specified beyond the error.
- Provider, risk policy, broker, market, clock and storage are arbitrary functions or steps; what a broker does inside one call is one step.
- The check that a batch does not span several timestamps and the sorting of the schedule: batches are given with one instant each.
- Runner.BacktestRunner.AskProvider: an answer that names other symbols or cadences than asked counts as no answer, and the waiting between attempts is not modelled.
- AccountLaws.ReplayRefinesBlotter: assumes that orders on a held symbol open on its side and reduce on the other, as the risk engine ensures (src/candlepilot/risk/engine.py:149-206); per order the exact condition is BlotterLaws.FillRefinesBlotterIff.
- LookAheadLaws.NoLookAhead: the snapshots shown to provider and policy are the same in both runs; when a rebuilt one is free of the future is Snapshots.NeedsNoFutureIff.
- Rejected.CounterfactualHoldsOnPaths: ticks carry the close of their bar, so a path that reaches the limit before an expiry inside a longer bar counts as too late, as the code counts the bar.
- ClockLaws.CloseOutIsTimelyIff: the batches themselves can still raise for an opening order without a stop, which is not about time.
- RollbackLaws.RollbackIsTruncation: compares cash, positions, trades and cooldowns; the curve is CurveLaws.RolledBackCurveIff.
- Summary.DrawdownIsWorstDecline: for positive equity levels, which the floor guarantees for reported ones.
- FundingLaws.FundingIsNeverRetroactive: for bars aligned to five minutes, as the market delivers them.
- EnvLaws.ReadAfterWriteIff: the keys are stripped single-line names without `=` that start neither with `#` nor with `export `, as all keys the settings page offers; other keys are covered by EnvStableLaws.StoreIff unless one of them stands on two lines or more.
- DecisionRoute.TradingEngine.EvaluateBatch: a failure of the audit store itself and a cancellation between two records are not modelled.
- EnvFile.WriteEnvFile: the temporary file, its permissions and the atomic replacement are not modelled.
- SymbolLocks.NoDeadlock: tasks run once each; the endless timer loops around them start new ones, which the arbitrary number of programs covers.
- OrderGate.EveryCallPassedTheGate: pausing and resuming state from storage at a restart is covered only as a lifted lock.
- The single-symbol evaluation outside a batch, the rescue counter and the recording of replay inputs in the live engine.
- The scheduler's task lists, timers and the detached stop task: stops and cancellations are arbitrary steps.
- The repair of probability ranges and the other checks of an analysis beyond the order of its levels.
- The fetch of the minute that completes an entry, row parsing and closed-row filtering before the outcome machines.
- Snapshots.HistoricalSnapshotBuilder.Build: the bars that the features are computed from stand for the features; bars are given ascending, as the market delivers them.
- Indicators, prompts, JSON schemas, the web interface, authentication and the command line.
