# A verified model of the trading workbench's transactional core

The workbench keeps its business logic in small database transactions. This project models
five parts of it and proves what holds over every run of each:

* **Schedules and leases** (`Schedules.dfy`, `ScheduleRunner.dfy`): any number of scheduler
  runners over one row per schedule. Each runner reads the due list, claims a row with a
  conditional update, submits outside any transaction, then marks or releases. Neither final
  update looks at who holds the lock, so safety is a timed-lease invariant, kept schedule by
  schedule.
* **Paper trading** (`PaperState.dfy`, `PaperEngine.dfy`, `PaperRuns.dfy`, `PaperValue.dfy`,
  `PaperDrift.dfy`, `PaperRefinement.dfy`, `PaperDrawdown.dfy`): every tick reloads a portfolio from an
  append-only cash ledger and a position table, trades, and persists again.
* **Jobs** (`Jobs.dfy`, `JobRunner.dfy`, `Redelivery.dfy`): the executor, cancel requests and
  the submitter's late update interleaved on one job row, its event log, a workflow row and a
  sync row; and what a second delivery of a finished job breaks.
* **Event stream** (`Streaming.dfy`): a poller over a growing log, resumable from any id.
* **Backtest, strategy and pure helpers** (`Models.dfy`, `Accounting.dfy`, `Execution.dfy`,
  `Risk.dfy`, `MACross.dfy`, `MarketData.dfy`, `Backtest.dfy`, `Payloads.dfy`,
  `Candidates.dfy`, `MarketAnalysis.dfy`).

`Wrappers.dfy` and `Sums.dfy` hold the result shapes and finite sums the others use.

A `session_scope` block is one atomic step (`src/quant_trading/storage/db.py:31-42`): it
commits everything or leaves the state as it was. Money is a `real`, time an `int`. Code that
changes rows is a class whose methods are proved against functions on values; properties of
whole runs are proved about those functions. A protocol with several parties is a step
relation over a list of actions, and the code of one party is a class whose `Valid()` says
that its tables are what some legal list of actions made of them. Between its transactions
that code calls `Others`, whose contract allows everything the other parties may do.

Results that went against expectation, each with a concrete input and the condition that
decides it:

* A tick that opens and closes an instrument never held before loses the realised gain: no
  stored row can take it (`PaperValue.GainCanBeLost`; exactly when: `PaperValue.TickValueExactly`).
  Over whole lives nothing else moves the books (`PaperValue.BooksMoveByLostGains`).
* A runner that outlives its lease lets one slot be submitted and marked twice with no crash
  at all (`Schedules.OverrunMarksTwice`). It cannot happen to a schedule while the runners it
  concerns finish in time (`Schedules.SlotsSubmittedOnce`), and it can from every state in
  which one of them has not (`Schedules.OverrunCanMarkTwice`).
* A finished job that is delivered a second time starts over unless it was cancelled
  (`Redelivery.RedeliveryHarmlessExactly`). Over whole lives its log then names more than one
  end and its progress falls (`Redelivery.RedeliveryBreaksExactly`), and a succeeded job can
  end failed (`Redelivery.SecondDeliveryFails`; exactly when the end can change:
  `Redelivery.EndChangesExactly`).
* A stream that has sent `stream_end` may still miss one event, the submitter's late
  "enqueued" (`Streaming.LateEnqueueMissed`; exactly when: `Streaming.EndMissesExactly`).
* A paper account that loses half of its money records a drawdown of 0
  (`PaperDrawdown.LossGoesUnrecorded`), because the peak is not stored: a snapshot knows only
  its own tick's fills (`PaperDrawdown.TickDrawdownExactly`), and a moving-average run never
  records a drawdown at all (`PaperDrawdown.MACrossRecordsNone`).
* A backtest point can record a negative drawdown, because only fills move the peak
  (`Backtest.DrawdownCanBeNegative`; exactly when: `Backtest.PointDrawdownSign`).
* With slippage an order that the exposure rule approves can end above its limit
  (`Risk.CostsExceedExposure`; exactly when: `Risk.ExposureAfterOrder`).
* On closes that fall below zero the drawdown scan can miss the largest drop
  (`MarketAnalysis.HigherPeakHidesDrop`; exactly when: `MarketAnalysis.ScanFindsWorstDrop`).

`dafny verify dfyconfig.toml` checks the whole project with Dafny 4.11.

## Model

| member | source | states |
|---|---|---|
| Schedules.AdvancedIsLeast | src/quant_trading/jobs/schedules.py:172-177 | the next slot is the least time after `now` congruent to next_run_at modulo the interval, and next_run_at itself when that is still ahead |
| Schedules.AdvanceInterval | src/quant_trading/jobs/schedules.py:172-177 | the loop terminates for every positive interval and computes the closed form by integer division |
| Schedules.ListDueIsDueList | src/quant_trading/storage/repositories.py:601-615 | the due query returns exactly the enabled, due, unlocked schedules, each once, by slot and then by id |
| Schedules.LeaseStaysKept | src/quant_trading/jobs/schedules.py:83-145 | every step of every party keeps the lease invariant of a timely schedule: whoever it concerns is within its lease, a holder owns the lock, the row still shows the slot it claimed, and no two runners hold it |
| Schedules.SlotStaysAccounted | src/quant_trading/jobs/schedules.py:113-143 | every step keeps the books of each slot: submissions = marks + submissions lost to crashes + the one in flight, and a marked slot lies behind next_run_at |
| Schedules.RunsAreSound | src/quant_trading/jobs/schedules.py:83-145 | both invariants hold of every timely schedule in every state of every run |
| Schedules.SlotsSubmittedOnce | src/quant_trading/jobs/schedules.py:95-145 | lease safety, schedule by schedule: a slot is marked at most once and submitted at most 1 + (crashes between submit and mark) times, for any number of runners and any interleaving, if the live runners that scan or hold this schedule finish in time, however long runners of other schedules take |
| Schedules.MarkMovesOn | src/quant_trading/storage/repositories.py:547-562 | a mark moves next_run_at to the least slot of the same phase past the runner's time, strictly past the slot it submitted |
| Schedules.NextRunKeepsPhase | src/quant_trading/jobs/schedules.py:115-137 | while the interval is unpatched next_run_at never falls and stays congruent to its first value over the whole run |
| Schedules.OverrunMarksTwice | src/quant_trading/storage/repositories.py:547-562 | without the timing assumption there is a run, without a crash, in which one slot is submitted twice and marked twice |
| Schedules.OverrunCanMarkTwice | src/quant_trading/jobs/schedules.py:95-145 | tightness, from every state of every run: if a live runner still holds a schedule whose row is free for the taking and shows the held slot, then with any idle runner and no crash that slot is marked twice more |
| ScheduleRunner.SchedulerDatabase.AcquireDueLease | src/quant_trading/storage/repositories.py:564-591 | the conditional update succeeds exactly on an enabled, due, unlocked row and then changes only its lock |
| ScheduleRunner.SchedulerDatabase.MarkSubmitted | src/quant_trading/storage/repositories.py:547-562 | records run time, job and next slot and drops the lock, whoever holds it |
| ScheduleRunner.SchedulerDatabase.ClearLease | src/quant_trading/storage/repositories.py:593-599 | drops the lock and nothing else |
| ScheduleRunner.SchedulerDatabase.RunDueSchedules | src/quant_trading/jobs/schedules.py:83-145 | with anything happening between its transactions, a batch is a legal part of a protocol run, ends holding nothing on every path (also when a claim or a submission raises), refuses a lease below one second without a change, and reports only jobs it marked |
| ScheduleRunner.SchedulerDatabase.ProcessDue | src/quant_trading/jobs/schedules.py:100-145 | one due id is claimed, submitted and marked, skipped when the claim is refused, rolled back when the claim raises, or released when the submission raises |
| ScheduleRunner.SchedulerDatabase.ClaimDue | src/quant_trading/jobs/schedules.py:100-118 | a granted claim fixes the slot and computes its successor in the claiming transaction; a refused or raising one changes no row |
| ScheduleRunner.SchedulerDatabase.RecordSubmission | src/quant_trading/jobs/schedules.py:127-143 | after a submission the slot is marked with the job id and the batch goes on |
| ScheduleRunner.SchedulerDatabase.Release | src/quant_trading/jobs/schedules.py:119-126 | after a failed submission the lease is released and the runner is idle |
| ScheduleRunner.SchedulerDatabase.HoldStands | src/quant_trading/jobs/schedules.py:113-143 | whatever others did meanwhile, a holder's row is still locked for it and still shows the claimed slot |
| Accounting.ApplyFillToCopy | src/quant_trading/portfolio/accounting.py:8-45 | the step-by-step update of a copied portfolio equals the specification, error cases included |
| Accounting.FillEffect | src/quant_trading/portfolio/accounting.py:12-43 | an accepted fill moves cash by notional and commission, holdings by the signed quantity, keeps the average cost on a sale and touches no other instrument |
| Accounting.FillRefusedExactly | src/quant_trading/portfolio/accounting.py:15-36 | a fill is refused exactly for a buy that cash does not cover or a sale of more than is held |
| Accounting.FillConservesBookValue | src/quant_trading/portfolio/accounting.py:12-43 | cash + sum(quantity × average cost) − realised gain is unchanged by every accepted fill |
| Accounting.FillsConserve | src/quant_trading/portfolio/accounting.py:12-43 | the same over every sequence of accepted fills, and equity is the initial value plus realised and unrealised gains |
| Models.EquityDecomposes | src/quant_trading/core/models.py:95-118 | equity is book value plus realised plus unrealised gains, in every portfolio |
| Accounting.FillRaisesPeak | src/quant_trading/portfolio/accounting.py:44-45 | after an accepted fill the recorded peak is the higher of equity and a non-zero earlier peak, so drawdown is not negative |
| Models.DrawdownSign | src/quant_trading/core/models.py:120-125 | drawdown is negative exactly when equity stands above a positive peak, and above 1 exactly when equity is negative |
| Execution.FillNeverBeatsClose | src/quant_trading/execution/simulator.py:13-28 | with rates in [0,1] and a positive close a fill never pays the trader better than the close, and a sale's commission never exceeds its proceeds |
| Execution.FillAmounts | src/quant_trading/execution/simulator.py:13-28 | the notional is the value at the close moved by the slippage rate against the trader, the commission a share of it |
| Execution.SlippageAmount | src/quant_trading/execution/slippage.py:6-9 | the recorded slippage is what the fill's notional differs by from the value at the close |
| Risk.CheckOrderFirstRefusal | src/quant_trading/risk/engine.py:10-21 | an order is approved exactly when every rule passes, and otherwise refused in the name of the first rule that does not |
| Risk.OrderOutcome | src/quant_trading/portfolio/accounting.py:12-45 | what a filled order leaves at any rates and any mark, from what is known before it: all that is then held counts at the fill price, and equity gains the revaluation of what was held less the commission |
| Risk.ExposureAfterOrder | src/quant_trading/risk/rules.py:124-175 | for every order that is filled, at any rates, any close and any mark, buy or sell: it passes exactly when equity is positive and there is room below the limit, and leaves market value within the limit exactly when it uses up no more than that room beyond what the rule expected |
| Risk.MarkedCosts | src/quant_trading/risk/rules.py:148-160 | with the instrument marked to the close only slippage and commission use up room |
| Risk.ExposureRuleForesees | src/quant_trading/risk/rules.py:124-175 | the special case of an instrument marked to the close and no costs: an order passes exactly when it would leave equity positive and market value within the limit |
| Risk.CostsExceedExposure | src/quant_trading/risk/rules.py:124-175 | with 1% slippage an order that passes a limit of 0.5 leaves the market value above it |
| MACross.Construct | src/quant_trading/strategy/builtin/ma_cross.py:10-19 | a strategy exists exactly for 0 < short < long and a positive order size |
| MACross.OrdersExactly | src/quant_trading/strategy/builtin/ma_cross.py:21-57 | it buys order_size when nothing is held and the short average has just risen above the long one, sells all it holds when it has just fallen below, and does nothing otherwise; stated on sums, without division |
| MACross.SignalIgnoresPriceUnit | src/quant_trading/strategy/builtin/ma_cross.py:21-57 | scaling all closes by a positive factor leaves the orders unchanged |
| MarketData.MarketDataRepository.UpsertDailyBar | src/quant_trading/storage/repositories.py:120-164 | overwrites the row with the bar's key in place, or appends one |
| MarketData.UpsertAllOverrides | src/quant_trading/storage/repositories.py:120-164 | any sequence of upserts equals successive map overrides on (instrument, date, adjusted, source), the timeframe always being 1d; keys stay unique and no row moves |
| MarketData.SyncTwiceIsSyncOnce | src/quant_trading/data/sync.py:94-108 | storing the same bars twice leaves exactly the table that storing them once leaves |
| MarketData.StoredBatchReadsBack | src/quant_trading/data/sync.py:94-108 | after storing a validated batch each of its bars is read back under its key |
| MarketData.ValidateBars | src/quant_trading/data/validation.py:4-11 | accepts exactly the batches in which no (instrument, date) repeats and returns a date-sorted permutation; otherwise names the first repeat |
| MarketData.SortByDateSorts | src/quant_trading/data/validation.py:11 | sorting yields a date-sorted permutation |
| MarketData.ListBarsInDateOrder | src/quant_trading/storage/repositories.py:166-188 | the history is date-sorted and of one instrument, strictly sorted when it has one source and one adjustment |
| MarketData.NewestDateNeverFalls | src/quant_trading/storage/repositories.py:120-188 | adding or overwriting a bar never moves the newest date of an instrument back |
| Backtest.Run | src/quant_trading/backtest/engine.py:44-122 | the nested loops compute the replay, its summary counts match the rows, and it raises exactly when the replay does |
| Backtest.MarkPositions | src/quant_trading/backtest/engine.py:100-102 | the scan over held positions re-marks the bar's own instrument and nothing else |
| Backtest.NoLookAhead | src/quant_trading/backtest/engine.py:60-112 | for any strategy and any suffix of bars the earlier trades and equity points are the same, and whatever is added is dated by an added bar |
| Backtest.PointOfPrefix | src/quant_trading/backtest/engine.py:60-112 | the point recorded for a bar is the one of the replay that ends with it |
| Backtest.ReplayConserves | src/quant_trading/backtest/engine.py:60-112 | from the initial cash, after every bar, the recorded equity is the portfolio's and equals the initial cash plus realised plus unrealised gains |
| Backtest.PointDrawdownSign | src/quant_trading/backtest/engine.py:100-112 | a recorded drawdown is negative exactly when the last fill's peak is positive and lies below cash plus other holdings plus the bar's own holding at its close |
| Backtest.DrawdownCanBeNegative | src/quant_trading/backtest/engine.py:100-112 | a replay of two bars at 10 and 20 that spends its cash of 100 on 10 shares records a drawdown of −1 on the second |
| Backtest.MACrossTradeDiscipline | src/quant_trading/strategy/builtin/ma_cross.py:21-57 | a moving-average backtest never raises; its fills alternate buy and sell of exactly order_size, and holdings are 0 or order_size |
| Backtest.MACrossReplayDisciplined | src/quant_trading/strategy/builtin/ma_cross.py:21-57 | the same from the initial cash after every bar |
| PaperState.UpsertedRealized | src/quant_trading/paper/repositories.py:231-279 | the stored gains add up to the portfolio's, except by exactly the realised delta when the traded instrument has neither a row nor an open position |
| PaperState.PersistLoadRoundTrip | src/quant_trading/paper/repositories.py:112-131 | loading what was persisted returns the same cash and open positions, and the same realised gain less exactly what was lost |
| PaperEngine.UpsertRows | src/quant_trading/paper/repositories.py:224-281 | the two loops over held and other rows write exactly the specified table |
| PaperEngine.PaperTradingEngine.CreateAccount | src/quant_trading/paper/repositories.py:35-58 | a new account holds one deposit row and nothing else |
| PaperEngine.PaperTradingEngine.AppendFillCashLedger | src/quant_trading/paper/engine.py:226-272 | a fill appends its notional and then its commission, each with the running cash |
| PaperEngine.PaperTradingEngine.UpsertPositions | src/quant_trading/paper/repositories.py:224-281 | the position table after a tick is the specified one and nothing else changes |
| PaperEngine.PaperTradingEngine.ProcessOrder | src/quant_trading/paper/engine.py:137-206 | one intent is checked, executed, booked or refused as specified |
| PaperEngine.PaperTradingEngine.ProcessOrders | src/quant_trading/paper/engine.py:137-206 | the order loop, with its counters and the portfolio it rebinds, is the specified fold |
| PaperEngine.PaperTradingEngine.Step | src/quant_trading/paper/engine.py:102-224 | a tick commits the specified account and summary, or raises and leaves every table as it was |
| PaperRuns.FreshSound | src/quant_trading/paper/repositories.py:35-58 | a fresh account satisfies the ledger and position invariant |
| PaperRuns.TickKeepsAccountSound | src/quant_trading/paper/engine.py:142-209 | every tick keeps it |
| PaperRuns.LedgerAndPositionsAgree | src/quant_trading/paper/engine.py:142-272 | any commands keep it: each cash_after is the sum of all amounts so far and not negative, the ledger has 1 + 2 × fills rows, and each position is the signed sum of its fills, even with several runs on the account |
| PaperRuns.ReachableLedgersAgree | src/quant_trading/paper/engine.py:142-272 | so it holds of every account reachable from a fresh one |
| PaperRuns.TickSettlesOrders | src/quant_trading/paper/engine.py:137-224 | every order of a committed tick is filled, rejected or skipped, the counters match the rows, each filled order has one fill and each fill its order, on the same terms, and one snapshot is added |
| PaperRuns.RunsNeverGoBack | src/quant_trading/paper/engine.py:118-131 | any commands keep last_processed_at at or below the newest bar date and each run's snapshot dates strictly increasing |
| PaperRuns.ReachableRunsInStep | src/quant_trading/paper/engine.py:118-131 | so both hold in every world reachable from a fresh account |
| PaperRuns.TickTwiceIsTickOnce | src/quant_trading/paper/engine.py:118-131 | a second tick without a newer bar changes nothing |
| PaperValue.TickValueExactly | src/quant_trading/paper/repositories.py:224-281 | a tick keeps the stored value if and only if it realised nothing or the gain found a row, and otherwise misses exactly the gain |
| PaperValue.BooksMoveByLostGains | src/quant_trading/paper/repositories.py:224-281 | in exact arithmetic, for any strategies, any number of orders and any instruments, the stored value moves over whole lives by the lost gains and nothing else |
| PaperValue.ReachableBooks | src/quant_trading/paper/repositories.py:224-281 | so in every reachable account it is the deposit plus the gains lost on the way |
| PaperValue.GainCanBeLost | src/quant_trading/paper/repositories.py:239-279 | a tick that buys and sells a new instrument at a loss of 2 leaves 998 of 1000 with no realised loss on record |
| PaperValue.CarefulTick | src/quant_trading/paper/repositories.py:239-279 | a strategy with at most one intent per tick, on the run's instrument and never selling what it does not hold, never loses a gain |
| PaperValue.PaperConserves | src/quant_trading/paper/engine.py:102-224 | commands of such strategies keep the stored value at the deposit and every snapshot's equity at the deposit plus realised and unrealised gains |
| PaperValue.ReachablePaperConserves | src/quant_trading/paper/engine.py:102-224 | so both hold, of reloads as well, in every account they reach from its deposit |
| PaperDrawdown.TickDrawdownExactly | src/quant_trading/paper/repositories.py:112-131 | the drawdown a committed tick records is not negative, and is not 0 exactly when after one of the tick's own fills equity was positive and higher than after its last, which takes two fills |
| PaperDrawdown.CarefulTickRecordsNone | src/quant_trading/paper/engine.py:133-211 | a strategy with at most one order per tick records 0, fill or no fill |
| PaperDrawdown.CarefulRunsRecordNone | src/quant_trading/paper/engine.py:133-211 | over any commands of such strategies every snapshot records 0 |
| PaperDrawdown.MACrossRecordsNone | src/quant_trading/strategy/builtin/ma_cross.py:21-57 | a moving-average paper run on a fresh account never records a drawdown, on any bars |
| PaperDrawdown.LossGoesUnrecorded | src/quant_trading/paper/repositories.py:283-306 | a whole run from a deposit of 1000, with ten shares bought at 100 and a second close of 50, leaves snapshots with equity 1000 and 500, both with drawdown 0 |
| PaperDrift.TickKeepsOthers | src/quant_trading/paper/engine.py:137-206 | a tick whose orders, however many, are all on the run's instrument leaves every other position as it was loaded |
| PaperDrift.TickDrift | src/quant_trading/paper/repositories.py:102-131 | with rounding on every persist, a tick with any number of orders on its own instrument moves the stored value by the gain it loses and at most (final holding + 2) half units besides; without a fill not at all |
| PaperDrift.TickLosesExactly | src/quant_trading/paper/repositories.py:239-279 | a tick loses something exactly when it realised something on an instrument that had no row before and is not held after it |
| PaperDrift.DriftBound | src/quant_trading/storage/models.py:195-212 | over any commands of strategies that trade only their run's instrument, F fills with holdings never above Q move the stored value by the lost gains and at most F × (Q + 2) half units besides |
| PaperDrift.DriftFromDeposit | src/quant_trading/storage/models.py:195-212 | with 6-decimal columns, in every account such strategies reach, the stored value differs from the stored deposit plus the lost gains by at most F × (Q + 2) × 0.0000005 |
| PaperDrift.DriftWhenNothingLost | src/quant_trading/storage/models.py:195-212 | and from the deposit itself by no more than that whenever no tick loses a gain |
| PaperDrift.CarefulDrift | src/quant_trading/storage/models.py:195-212 | which at most one order per tick guarantees |
| PaperDrift.SixDecimalsRound | src/quant_trading/storage/models.py:185-215 | any rounding to 6 decimals within half a unit meets the bound's assumption with the half unit 0.0000005 |
| PaperRefinement.MACrossIsCareful | src/quant_trading/strategy/builtin/ma_cross.py:21-57 | the moving-average strategy emits at most one order, for its own instrument, never an oversell, and does not look at market prices of the portfolio |
| PaperRefinement.TickAlike | src/quant_trading/paper/engine.py:133-211 | one approved tick takes an account that agrees with a backtest book to one that agrees with the book after the same bar |
| PaperRefinement.PaperRefinesBacktest | src/quant_trading/paper/engine.py:133-211 | bars fed one per tick to a fresh account give, after every one of them, the cash, quantities, average costs and realised gain of the backtest on the bars so far |
| PaperRefinement.MACrossPaperRefinesBacktest | src/quant_trading/backtest/engine.py:60-112 | the same for the moving-average strategy, for which the backtest never raises |
| Jobs.LifecycleStaysKept | src/quant_trading/jobs/runtime.py:52-157 | every step of executor, cancel request and late enqueue keeps the lifecycle invariant, and no step changes a terminal status |
| Jobs.LifecycleHolds | src/quant_trading/jobs/runtime.py:52-157 | the invariant holds over every interleaving |
| Jobs.TerminalIsFinal | src/quant_trading/jobs/service.py:32-64 | terminal statuses are absorbing, the log only grows, holds one terminal event exactly when the status is terminal, of that status, and logged progress never falls |
| Jobs.OnlyEnqueuedFollows | src/quant_trading/jobs/service.py:53-64 | after a terminal status the log can gain one late "enqueued" event and nothing else |
| Jobs.CancelStaysKept | src/quant_trading/jobs/cancellation.py:23-61 | every step keeps the count of passed cancellation checks in line with the executor's position and with the first request |
| Jobs.AuditStaysKept | src/quant_trading/data/sync.py:78-130 | every step keeps the bar table and both audit rows as the executor's position says |
| Jobs.CancellationAndAuditAgree | src/quant_trading/jobs/runtime.py:76-157 | success leaves both audit rows succeeded, the count right and every bar readable; failure or cancellation leaves the bar table as before and no audit row running; only a request cancels; a request before the last check never ends in success |
| Redelivery.RedeliveryHarmlessExactly | src/quant_trading/jobs/runtime.py:57-63 | a finished job reached by any run is left as it is by a redelivery exactly when it is cancelled; otherwise it runs again from progress 10 with its old end in the log |
| Redelivery.TerminalLostExactly | src/quant_trading/jobs/runtime.py:52-74 | a terminal status is lost exactly by the restart of a succeeded or failed job |
| Redelivery.LivesTold | src/quant_trading/jobs/runtime.py:52-157 | over every life with redeliveries: positions, the count of terminal events and the rise of progress follow the restarts so far |
| Redelivery.RedeliveryBreaksExactly | src/quant_trading/jobs/runtime.py:52-157 | the log holds one terminal event per restart besides the present end, so it names one end if and only if nothing was restarted; logged progress never falls if and only if no restart came after more than 10 was reported |
| Redelivery.EndChangesExactly | src/quant_trading/jobs/runtime.py:76-157 | later deliveries can give a finished job another end exactly when it was not cancelled and its type is supported |
| Redelivery.SuccessCanFail | src/quant_trading/jobs/runtime.py:116-132 | every succeeded job of a supported type has a redelivery that ends failed |
| Redelivery.FailureCanBeCancelled | src/quant_trading/jobs/runtime.py:100-115 | every failed job of a supported type has a redelivery that ends cancelled |
| Redelivery.SecondDeliveryFails | src/quant_trading/jobs/runtime.py:49-157 | a run that succeeds at progress 100, and a second delivery of the same job that ends it failed |
| JobRunner.JobDatabase.CreateQueued | src/quant_trading/jobs/service.py:32-46 | a submitted job starts queued with one event and is the start of a legal run |
| JobRunner.JobDatabase.CancelJobRun | src/quant_trading/jobs/cancellation.py:32-61 | refused without a change exactly on a terminal job; otherwise a queued job ends cancelled and a running one is asked to stop |
| JobRunner.JobDatabase.MarkJobEnqueued | src/quant_trading/jobs/service.py:53-64 | the late update touches neither status nor progress, whenever it comes |
| JobRunner.JobDatabase.ExecuteJobRun | src/quant_trading/jobs/runtime.py:49-157 | with requests arriving between any two transactions, a delivery ends in a terminal status, reports that status, and leaves audit rows and bar table in agreement with it |
| JobRunner.JobDatabase.StartExecution | src/quant_trading/jobs/runtime.py:52-74 | a job cancelled while queued is left alone; any other is marked running |
| JobRunner.JobDatabase.RecordOutcome | src/quant_trading/jobs/runtime.py:100-157 | the exception decides the final status: cancelled for a cancellation, failed for any other, succeeded for none |
| JobRunner.JobDatabase.RunWithAudit | src/quant_trading/workflows/runner.py:45-94 | the workflow row ends succeeded or failed with the callback, and the exception goes on unchanged |
| JobRunner.JobDatabase.ExecutePayload | src/quant_trading/jobs/runtime.py:172-249 | one cancellation check before the work of a plain job; a sync does its own checks |
| JobRunner.JobDatabase.SyncDailyMarketData | src/quant_trading/data/sync.py:53-139 | every way out of the sync passes the matching update of its audit row |
| JobRunner.JobDatabase.FetchAndStore | src/quant_trading/data/sync.py:78-118 | checks, progress reports, fetch and store in the source's order |
| JobRunner.JobDatabase.FetchBars | src/quant_trading/data/sync.py:81-91 | delivered bars go on sorted, and only if they validate |
| JobRunner.JobDatabase.StoreBars | src/quant_trading/data/sync.py:94-118 | bars staged in one session, with a check before each, reach the table all at once or not at all |
| JobRunner.JobDatabase.CommitStaged | src/quant_trading/data/sync.py:109-118 | the commit replaces table and sync row together; a failed commit leaves both |
| Streaming.EventsAfterExact | src/quant_trading/storage/repositories.py:472-485 | the query returns exactly the job's events above the id, once each, in increasing order |
| Streaming.ResumeContinues | src/quant_trading/storage/repositories.py:472-485 | reading on from any id of an earlier answer continues it, on any later table |
| Streaming.Turn | src/quant_trading/api/job_streaming.py:51-72 | one turn yields the new events, then the end frame of a terminal job or a heartbeat that is due, and stops exactly at the end or the idle limit |
| Streaming.IterJobEventSse | src/quant_trading/api/job_streaming.py:26-74 | the generator yields exactly the specified frames for every list of polls |
| Streaming.StreamExact | src/quant_trading/api/job_streaming.py:36-74 | against a growing log the emitted events are exactly the job's events above the start id as of the last poll |
| Streaming.ReconnectIsSeamless | src/quant_trading/api/job_streaming.py:36-74 | cutting at any emitted id and reconnecting gives the events one connection would have given by then |
| Streaming.EndIsTrustworthy | src/quant_trading/api/job_streaming.py:62-64 | watching any run of a job, a `stream_end` is the last frame, names the status the job keeps for ever, and the event of that status was emitted or lies at or below the start id |
| Streaming.EndMissesExactly | src/quant_trading/api/job_streaming.py:62-64 | an ended stream has emitted all that the job's run ever logs above its start, unless the submitter's update came after its last poll; then all but that one event |
| Streaming.LateEnqueueMissed | src/quant_trading/jobs/service.py:53-64 | a job cancelled while queued and marked enqueued afterwards, with a stream that ends in between and never emits the third event |
| Payloads.LookupFinds | src/quant_trading/agents/candidates.py:337-358 | a dictionary lookup succeeds exactly when the key is there, with a value stored under it |
| Payloads.VisitFindsFirst | src/quant_trading/agents/candidates.py:337-358 | the nested search returns what the first dictionary in pre-order that holds the key has under it, and nothing exactly when none holds it |
| Payloads.FlattenInto | src/quant_trading/agents/candidates.py:251-266 | the recursive closure appends every key and every leaf but None, in reading order |
| Payloads.EveryKeyIsAPart | src/quant_trading/agents/candidates.py:251-266 | every key of every nested dictionary is in the scanned text |
| Payloads.EveryLeafIsAPart | src/quant_trading/agents/candidates.py:251-266 | so is every leaf but None, however deep: strings as they are, anything else as `str` |
| Candidates.ParsePositiveInt | src/quant_trading/agents/candidates.py:310-322 | accepts exactly positive integers and digit strings of them, and no booleans |
| Candidates.ParseInitialCash | src/quant_trading/agents/candidates.py:325-334 | accepts only a string that reads as a positive finite decimal, and returns that decimal written plainly |
| Candidates.ParseParameters | src/quant_trading/agents/candidates.py:269-307 | parameters are returned exactly when there are no complaints, and then make a constructible strategy |
| Candidates.ResolvedSymbolValidates | src/quant_trading/agents/candidates.py:361-375 | a resolved symbol, cut to 32 characters, passes the workflow's symbol check, which may only strip trailing blanks the cut exposed |
| Candidates.ScanSafetyFlags | src/quant_trading/agents/candidates.py:242-248 | the flags raised are those whose patterns match the flattened payload |
| Candidates.NoFlagIffNoMatch | src/quant_trading/agents/candidates.py:242-248 | no flag is raised exactly when no pattern matches |
| Candidates.MissingFieldsAre | src/quant_trading/agents/candidates.py:99-101 | there is no missing-field complaint exactly when every required field is present |
| Candidates.NoErrorsExactly | src/quant_trading/agents/candidates.py:96-111 | a specification is free of complaints exactly when fields, template, numbers, amount and symbol are all in order |
| Candidates.OnlyTemplateError | src/quant_trading/agents/candidates.py:113-116 | the template complaint stands alone exactly when the template status is needs_review and there is one error |
| Candidates.ValidateStrategyCandidate | src/quant_trading/agents/candidates.py:93-153 | `passed` exactly without flags and errors, `needs_review` exactly when the template is the only complaint, payloads exactly when passed; a passed payload is accepted by the workflow's symbol and window checks and by the strategy, and, if a decimal that was read can be written and read back, by its cash check for the amount asked for |
| Candidates.WorkflowMatchesStrategy | src/quant_trading/workflows/operations.py:227-233 | the workflow's window and size checks admit exactly the settings the strategy can be built from |
| MarketAnalysis.MaxDrawdown | src/quant_trading/agents/market_analysis.py:109-119 | the one-pass loop computes the deepest fall below the running peak, on every non-empty list |
| MarketAnalysis.DeepestIsGreatest | src/quant_trading/agents/market_analysis.py:109-119 | that number bounds every fall below the running peak and, unless 0, is one of them |
| MarketAnalysis.ScanFindsWorstDrop | src/quant_trading/agents/market_analysis.py:109-119 | for every list the scan equals the maximum of (c_i − c_j)/c_i over all i ≤ j if and only if each negative close after a positive one is covered from some running peak (a comparison of products of closes) |
| MarketAnalysis.NonNegativeScanIsWorst | src/quant_trading/agents/market_analysis.py:109-119 | in particular it does when no negative close follows a positive one, and no other number is that maximum |
| MarketAnalysis.DrawdownRange | src/quant_trading/agents/market_analysis.py:109-119 | on positive closes the result lies in [0,1) and is 0 exactly when the closes never fall |
| MarketAnalysis.ScalingKeepsDrawdown | src/quant_trading/agents/market_analysis.py:109-119 | scaling all closes by a positive factor leaves the result unchanged |
| MarketAnalysis.HigherPeakHidesDrop | src/quant_trading/agents/market_analysis.py:109-119 | for closes 1, 4, −1 the condition fails and the scan gives 1.25 although a fall of 2 is there |

## Left out

- SlotsSubmittedOnce: assumes that a runner's `now` is not ahead of the clock and that a live runner that scans or holds the schedule finishes before its own lease ends; an edit of next_run_at during a live lease is excluded, edits of the other columns are steps of the model.
- PaperRefinesBacktest: claims cash, quantities, average costs and realised gain, not equity, because a fresh paper position is valued at the fill price and the backtest re-marks it to the close.
- DriftBound: is stated for strategies that trade only their run's instrument; rounding is not bounded for a tick that trades several, whose exact books are covered by BooksMoveByLostGains.
- LedgerAndPositionsAgree: is proved for exact persists and rates in [0,1]; rounded persists are covered by DriftFromDeposit.
- IterJobEventSse: whether a heartbeat is due and whether the idle limit has passed are inputs of each poll; the timers, the clamping of their settings and the sleep are not modelled.
- EndIsTrustworthy: assumes that event ids follow commit order and that each poll sees one committed state.
- ExecuteJobRun: assumes single delivery (what redelivery after the end breaks is in `Redelivery.dfy`; two executors at once are not modelled); a process that dies half-way, and a database error inside the executor's own bookkeeping transactions, are not modelled.
- CancellationAndAuditAgree: job types other than the market-data sync do their work in one opaque call; what that call stores is not modelled.
- ValidateStrategyCandidate: regular expressions, number syntax, `str` and lower-casing are parameters; acceptance of the amount assumes that a decimal that was read from text can be written plainly and read back (`Candidates.RoundTripsInUnary` shows that this can be met).
- Portfolios are values: the source copies them before every update, and aliasing of position objects is not modelled.
- A strategy is a function of history and portfolio; strategies with hidden state are not modelled.
- One paper account per state: rows of other accounts are never read by its queries.
- Database isolation: each transaction is treated as serializable, although rows are read without locks.
- Names, symbols of instruments, order types, reasons, display columns, timestamps and durations of rows, and error texts, which take no part in any decision.
- Validation of a schedule's settings when it is created or edited: intervals are only taken as positive (`src/quant_trading/jobs/schedules.py:148-158` demands at least 60 seconds).
- Bar invariants (high, low, volume), instrument rows, broker event rows and the dry-run adapter's request list.
- The order of bars of one date from several feeds, which the query leaves open.
- Failure of the queue after a job row was created, and the queue itself; an unsupported executor setting raises with the row left queued.
- A stored request payload that does not load in the executor's first transaction, which would leave the job queued; payloads are stored by the same code that loads them.
- What a submission does that raises after the job was queued: the lease is released and the slot counts as not submitted.
- Decimal's 28-digit context: arithmetic is exact except for the rounding of stored columns.
- The remaining market metrics (averages, standard deviation, window returns) and the language-model client.
- HTTP routes, dashboard, authentication, settings, migrations, legacy code, and JSON encoding: plumbing.
