# Verified model of the trading monitor's stateful core

This project models the stateful subsystems of an intraday trading monitor and proves what they keep over
whole runs:

- **Crash-safe state file and registry** (`SafeState.dfy`, `Registry.dfy`). A write is a sequence of disk
  primitives; each may succeed, raise or be the point where the process dies, and copies and sidecars may
  tear. The registry is any number of processes over one such file, each with its own memory of what it
  wrote last.
- **Backtest fill simulator and engine** (`FillModel.dfy`, `FillLaws.dfy`, `FillLocality.dfy`,
  `FillExits.dfy`, `FillTerms.dfy`, `FillEstimate.dfy`, `FillSimulator.dfy`, `Engine.dfy`). One bar is a fixed order of
  passes over lists of orders, positions and trades. The class rewrites its lists and accounts in place and
  is proved equal to the passes; the laws are proved about runs of the passes.
- **Tick-to-bar aggregation** (`BarBuilder.dfy`). The tick thread and the flush thread interleave freely;
  the flush thread reads the clock outside the lock.
- **Batching database writer** (`DbWriter.dfy`, `DbLaws.dfy`). The atomic sections between await points, any number of
  drains in flight.
- **Event replay** (`Replay.dfy`, `ReplaySignals.dfy`). The log the subscriber writes, the projection's fold with its upsert,
  the compliance report's own fold, and the pairing of openings with closings.
- **Smaller components**: the signal context cache (`ContextCache.dfy`), the request limiter
  (`RateLimit.dfy`), the backtest metrics (`Metrics.dfy`) and the VWAP reclaim detector
  (`VwapReclaim.dfy`).

`Wrappers.dfy` and `Seqs.dfy` hold the shared option type and the facts about filters, sums and list passes.
`dafny verify dfyconfig.toml` checks the whole project.

## Reading the model

Objects that the source updates in place are classes. Their methods are proved equal to functions on values
(`Write`, `OnBar`, `Act`, `Step`, `Stored` and so on), and the theorems are about those functions and runs
of them.

- Prices and P&L are reals, without rounding. Hashes of canonical JSON are taken to be injective, so a
  sidecar names one document and `_last_hash` is the content itself.
- `ref` on orders, positions and trades stands for the identity of the payload object an order came from.
  The source never branches on it.
- Positions are values in a list, not shared objects: a pass that changes a position replaces it.
- A failing disk primitive leaves its destination either as it was or torn. An error after a complete copy
  has the disk effect of an error at the next primitive, so it is one of these combinations too.
- Clock readings, disk faults, database outcomes, the order in which a query returns rows, and strategies'
  signals are parameters or arbitrary.
- The counters that `enqueue` bumps from several threads are bumped atomically here.

## Where the code and its comments differ

- `lifecycle/safe_state.py:165` calls the checksum best effort because the main file is already safe. It is
  not: a replaced primary under its predecessor's checksum is rejected by `read`. `AcknowledgedExact` shows
  that a write that returned True is the state read back if and only if its checksum was written, or there was
  no sidecar before and the failed checksum write left none.
- `lifecycle/safe_state.py:211` speaks of rejecting a lower version and of using the higher one; the code
  only logs, and returns the lower one: `ReadGoesBack`. `ReadsNeverGoBack` says when this cannot happen.
- `monitor/distributed_registry.py:47` promises True on success. The result of the write is ignored;
  `AcquireLandsExact` says exactly when a True answer is in the file.
- `monitor/distributed_registry.py:148` says that `reset` clears all positions. A process whose last write was
  of no positions skips it, whatever the file holds by then: `ResetLandsExact`.
- `db/writer.py:124` says that `stop` flushes the remaining rows and then cancels. A drain of the flush loop that
  awaits its insert is cancelled with its batch, and what it had written is not counted either:
  `CancelledRowVanishes`, `QuietExact`.
- `db/event_sourcing_subscriber.py:169-173` takes the sequence number and the version before the row is built,
  so an event that goes to the fallback file leaves a gap in both: `GaplessExact`.
- `monitor/bar_builder.py:137` says that tickers with ticks are those of the last flush cycle. A minute in
  which nothing trades does not clear the set: `CoverageExact`, `IdleMinuteStaysCovered`.
- The upsert at `db/projection_builder.py:117` does not update `position_id` and `opened_event_id`, so a row
  that outlives a close and a reopening keeps the ids of the closed position: `StaleRow`, `RowIdsExact`.
- A strategy that only won has profit factor 0 in its group (`backtests/metrics.py:205`) and 999.9 overall
  (`backtests/metrics.py:143`): `OneGroupExact`.
- `queue_from_vwap` with an explicit quantity queues the order and then fails in its log statement, because
  the price was never set (`backtests/fill_simulator.py:179-186`): `QueueFromVwap`.

## Model

The laws over runs come first in each part. The last eight rows, on exit prices and on the options estimate, are
facts about single formulas that the laws do not rest on.

| member | source | states |
|---|---|---|
| SafeState.CrashTolerance | lifecycle/safe_state.py:152-209 | After a completed write on any disk, and while at most two writes since the latest complete one were interrupted at any step, `read` returns exactly the last completed document, of a version above the earlier primary's; if that primary carried the highest version, above every earlier copy and sidecar |
| SafeState.StrikeKeepsCover | lifecycle/safe_state.py:335-359 | One attempt, whatever happens at each of its disk primitives, moves the readable document at most one backup slot back |
| SafeState.ReadsNeverGoBack | lifecycle/safe_state.py:211-221 | Two reads within one such run never see the version decrease |
| SafeState.ReadGoesBack | lifecycle/safe_state.py:211-221 | After an acknowledged blind write over a completed one, a read returns the version before the one read last |
| SafeState.ThirdStrikeLosesAll | lifecycle/safe_state.py:189-209 | Two is tight: from every healthy disk there are three interrupted writes after which no copy is readable |
| SafeState.OneWriteExact | lifecycle/safe_state.py:152-171 | Right after a completed write, exactly which single further write can lose its state: one whose rotation error was swallowed and whose checksum was then not written, unless only the copy of a sidecar onto a bare backup failed |
| SafeState.PrimariesGrow | lifecycle/safe_state.py:92-102 | Under any interruptions a replaced primary carries a version strictly above every earlier copy and sidecar, and the primary is never torn |
| SafeState.AcknowledgedExact | lifecycle/safe_state.py:165-177 | A write that returned True is what `read` returns if and only if its checksum was written, or no sidecar existed and the failing checksum write left none |
| SafeState.VerdictMeans | lifecycle/safe_state.py:104-177 | What each way of returning leaves on disk: nothing touched without need or room, the primary kept when refused, the new document in it when True, and no temporary file |
| SafeState.RotationShifts | lifecycle/safe_state.py:335-359 | An uninterrupted rotation moves every copy that exists, and every sidecar that exists, one place back |
| SafeState.SafeStateFile.WriteInner | lifecycle/safe_state.py:92-177 | The files and the verdict of one write under every combination of errors and crash points; the remembered content changes only when True is returned |
| SafeState.SafeStateFile.RotateBackups | lifecycle/safe_state.py:335-359 | Which copies a rotation changes, up to the first error |
| SafeState.SafeStateFile.ReadState | lifecycle/safe_state.py:181-225 | The validated copy in fallback order, and that the last seen version only grows |
| Registry.RegistrySafe | monitor/distributed_registry.py:43-83 | Over every run in which layers call from their own process and holders release, the unchanged-content skip drops no update: the file is exactly the outstanding True answers, at most the global limit |
| Registry.OneHolder | monitor/distributed_registry.py:85-104 | In every such state no two layers were told they hold one ticker, and the validated queries see the same positions |
| Registry.AcquireAnswerExact | monitor/distributed_registry.py:55-71 | In every safe state a call from the layer's process is answered True if and only if no other layer holds a True answer for the ticker and this one does already or the outstanding answers are below the limit |
| Registry.AnswersAfterRun | monitor/distributed_registry.py:55-71 | The same after any disciplined run |
| Registry.RegistryOutlivesDeaths | monitor/distributed_registry.py:43-83 | The same calls, with processes dying at any of their disk primitives and checksum writes failing: every True answer not given back is in the file, the file is within the limit, and no two layers hold True answers for one ticker |
| Registry.SafeIsKept | monitor/distributed_registry.py:32-41 | Every safe state, a fresh one among them, is a possible start of such a run |
| Registry.OwnChangeIsNew | lifecycle/safe_state.py:104-112 | Why: changing one's own entry can never give back the content one remembers writing |
| Registry.AcquireLandsExact | monitor/distributed_registry.py:67-71 | Under disk faults, exactly when a fresh True answer is in the file |
| Registry.StartedSafe | monitor/distributed_registry.py:32-41 | A fault-free file without positions, with processes that wrote nothing, is a safe start |
| Registry.ReleaseLandsExact | monitor/distributed_registry.py:73-83 | Under disk faults, exactly when an answered release of a held ticker has removed it from the file |
| Registry.ResetLandsExact | monitor/distributed_registry.py:147-149 | Under disk faults, exactly when an answered reset has emptied a file that held positions |
| Registry.ReleaseSafeExact | monitor/distributed_registry.py:73-83 | Without any discipline, exactly which releases of a held ticker keep a safe state safe: the holder's own, and those that the skip drops |
| Registry.ForeignReleaseDropsAcquire | lifecycle/safe_state.py:104-112 | After a release by a process that is not the holder, the next acquire by the first process is answered True although the skip leaves the disk as it was |
| Registry.ForeignReleaseBreaksSafety | monitor/distributed_registry.py:43-83 | From a fresh start one such release is enough for a second layer to be told it holds, and to be recorded for, a ticker that the first was told it holds and never released |
| Registry.DistributedPositionRegistry.TryAcquireTicker | monitor/distributed_registry.py:43-71 | The file, the remembered content and the answer of one acquire, with every disk fault |
| Registry.DistributedPositionRegistry.ReleaseTicker | monitor/distributed_registry.py:73-83 | The same for one release |
| Registry.DistributedPositionRegistry.ResetPositions | monitor/distributed_registry.py:147-149 | The same for a reset |
| Registry.DistributedPositionRegistry.Query | monitor/distributed_registry.py:85-104 | Holder and count come from the validated read |
| FillLaws.SharesConserved | backtests/fill_simulator.py:379-400 | Over every run the shares queued under a payload equal those pending, held and traded |
| FillLaws.LotsConserved | backtests/fill_simulator.py:501-536 | Every queued order is pending, held, or behind exactly one final trade, and has at most one partial trade |
| FillLaws.OptLotsConserved | backtests/fill_simulator.py:581-604 | Every options order is pending, held, or behind exactly one trade |
| FillLaws.OrderAccounted | backtests/fill_simulator.py:460-536 | For an order queued once, in any run from a book that does not know it: while held, original quantity = open quantity + traded quantity; after its final trade, the trades alone make up the original quantity |
| FillTerms.OrderTerms | backtests/fill_simulator.py:253-277 | Over every run every position of an order has its ticker, strategy, side, targets and original quantity; its stop and quantity are the order's until half is sold, from then on the entry price and the other half; trades are of half at the first target, else of all or what is left |
| FillTerms.OptOrderTerms | backtests/fill_simulator.py:290-312 | Over every run every options position and trade has the terms of its order, thirty days if the expiry is unknown and at least one otherwise |
| FillLaws.AtLeastOneShare | backtests/fill_simulator.py:379-391 | If every order is for at least one share, so is every position and every partial and final trade of any run |
| FillLaws.AlwaysLive | backtests/fill_simulator.py:329-338 | No position in the lists is ever unfilled or already closed |
| FillLaws.NothingHolds | backtests/fill_simulator.py:148-168 | A fresh simulator has every such property, so the two laws above hold of its runs |
| FillLocality.TickerRefinement | backtests/fill_simulator.py:219-458 | What any interleaved run does to one ticker is what a simulator that saw only that ticker's calls does |
| FillLocality.TickersCommute | backtests/fill_simulator.py:219-458 | Calls for two tickers commute, for every ticker's part of the book, whatever ran before and after |
| FillTerms.ExitsExactly | backtests/fill_simulator.py:340-402 | From a bar's prices alone, exactly when a position is stopped, sells half, closes at the second target, or stays; a touched level trades, and the stop wins unless the open is strictly nearer to the target |
| FillTerms.NotDue | backtests/fill_simulator.py:333-343 | Positions of other tickers and those just filled are left alone |
| FillTerms.EodExactly | backtests/fill_simulator.py:442-458 | The day's end closes every live position of the ticker whole, and no other |
| FillTerms.OptExitsExactly | backtests/fill_simulator.py:408-438 | Exactly when an options position closes, for which of the three reasons, and at what P&L |
| FillTerms.OptOpenedDescends | backtests/fill_simulator.py:302-312 | An options position is entered at the bar's close with no bars held |
| FillTerms.NothingForgotten | backtests/fill_simulator.py:248-404 | After a bar the lists hold what every position's turn left, every position of other tickers, and every order of the ticker filled at the open |
| FillTerms.TurnRecorded | backtests/fill_simulator.py:322-458 | Every trade a held position makes in its turn is recorded by the bar |
| FillTerms.OptionsNotForgotten | backtests/fill_simulator.py:290-439 | Held options positions, and the ticker's orders entered at the bar's close, are all judged at the close, and what that leaves or records is in the book |
| FillExits.ExitFloor | backtests/fill_simulator.py:340-458 | On a valid bar every equity trade recorded, end of day included, was made in the turn of a position held before the bar and is within slippage of that position's stop (floor for longs, ceiling for shorts, targets on the right side), except when both levels traded and the target was judged nearer; or it closes at the day's end an order filled on this very bar |
| FillExits.TurnFloor | backtests/fill_simulator.py:340-458 | The same for any one position: every trade it makes in its own turn respects its own stop |
| FillExits.ExitFloorOfRef | backtests/fill_simulator.py:340-458 | With distinct payloads, every equity trade a bar records for a held position respects that position's stop |
| FillExits.FloorExact | backtests/fill_simulator.py:355-458 | The exception is exact: on the day's last bar some exit of a live ordered position is beyond its stop if and only if the first target was judged nearer, the second did not trade, and the close less slippage is beyond the stop |
| FillExits.NearerTargetBreaksFloor | backtests/fill_simulator.py:355-391 | The exception is real: a concrete bar and position |
| FillExits.OptionsLifetime | backtests/fill_simulator.py:406-439 | Whatever the prices, after max(1, 390·(dte − 10)) bars of its ticker an options order is neither pending nor held, and exactly one trade was recorded for it |
| FillExits.LifetimeDays | backtests/fill_simulator.py:293-300 | That number of bars from the days left: one up to ten days, 390 for each day beyond, 7800 if unknown |
| FillSimulation.FillSimulator.MoneyConserved | backtests/fill_simulator.py:489-492 | Equity change = cumulative P&L = sum of all trades' P&L; equity less cash = sum of the options trades' P&L |
| FillSimulation.FillSimulator.Record | backtests/fill_simulator.py:489-492 | One equity trade is appended and the three accounts stay those of the trades |
| FillSimulation.FillSimulator.CloseOptions | backtests/fill_simulator.py:581-604 | An options trade moves the equity and not the cash |
| FillSimulation.FillSimulator.CheckExit | backtests/fill_simulator.py:332-402 | The branching stop, target, partial and ambiguity code leaves the position and the trades of its specification |
| FillSimulation.FillSimulator.ProcessBar | backtests/fill_simulator.py:219-458 | One bar leaves exactly the lists its passes define, in order, and the accounts balanced |
| FillSimulation.FillSimulator.QueueFromVwap | backtests/fill_simulator.py:177-186 | A VWAP signal queues one pro order, long exactly for BUY: of the given quantity, raising afterwards, or else of the most whole shares the trade budget buys at the price, at least one |
| Engine.PendingIsLatest | backtests/engine.py:259-304 | At any point of any session what is pending for a ticker is exactly what its latest bar raised |
| Engine.NoLookAhead | backtests/engine.py:277-304 | Those orders, and no others, are filled at the open of the ticker's next bar and go through its stop and target checks untouched |
| Engine.FlatAfterEod | backtests/fill_simulator.py:441-458 | Once a ticker had its end-of-day bar no pro or pop position of it is open through the rest of the final timestamp |
| Engine.FlatAtClose | backtests/engine.py:259-307 | After a session, begun with any live positions, no pro or pop position is open for any ticker with a bar at the final timestamp |
| Engine.BacktestEngine.ProcessSession | backtests/engine.py:259-307 | The nested loops play the session's bars in order with the end-of-day flag on the last timestamp only, whatever orders strategies queue for any ticker; each equity point is the starting equity plus the P&L of all trades closed by its timestamp |
| BarBuilding.StreamingIsBatch | monitor/bar_builder.py:363-421 | Under every interleaving of the two threads with a clock that never runs back, a ticker's flushed bars are the group-by-minute of its accepted ticks, and its accumulator is the fold of the current minute |
| BarBuilding.StartedInStep | monitor/bar_builder.py:150-159 | A started builder is in that state, so the theorem applies to every run from a start |
| BarBuilding.VolumeConserved | monitor/bar_builder.py:65-76 | Volume accepted for a ticker = volume of its flushed bars + volume in progress |
| BarBuilding.BarBounds | monitor/bar_builder.py:65-92 | The bar of some ticks has their first and last price, attained extremes that bound every price, and their summed size |
| BarBuilding.VwapBounds | monitor/bar_builder.py:78-80 | The volume-weighted price lies between the bar's low and high |
| BarBuilding.VwapExact | monitor/bar_builder.py:73-80 | The VWAP of some ticks times their shares is what they traded for |
| BarBuilding.HistoryIsWindow | monitor/bar_builder.py:186-230 | A ticker's history is always the rolling window over what was last seeded and every bar flushed since |
| BarBuilding.StartedWindowed | monitor/bar_builder.py:150-159 | A started builder is in that state |
| BarBuilding.HistoryIsLatest | monitor/bar_builder.py:458-464 | With a window of n the history has as many bars as were seeded and flushed, up to n, and they are the latest, in order |
| BarBuilding.NewestIsLast | monitor/bar_builder.py:454-464 | After a crossing the bar just finished is the last of its ticker's history |
| BarBuilding.SeedKeeps | monitor/bar_builder.py:195-214 | A seed keeps exactly the bars with a positive close, if there are enough |
| BarBuilding.TradeAccepted | monitor/bar_builder.py:377-394 | Exactly the trades with a positive price and size are accepted, into the minute of the clock |
| BarBuilding.CoverageExact | monitor/bar_builder.py:314-325 | Exactly which tickers are covered: the seeded ones that traded in the last minute in which anything did |
| BarBuilding.IdleMinuteStaysCovered | monitor/bar_builder.py:446-447 | A run from a start after which a ticker is covered although it had no tick in the minute flushed last |
| BarBuilding.BarBuilder.FlushMinuteLocked | monitor/bar_builder.py:440-485 | The state after a flush, and exactly which tickers get a BAR event |
| BarBuilding.BarBuilder.OnTick | monitor/bar_builder.py:363-394 | One tick, with the crossing of a minute under the same lock and exactly the tickers that then get a BAR event |
| BarBuilding.BarBuilder.FlushTurn | monitor/bar_builder.py:405-415 | The locked half of a flush turn with a minute read earlier, and exactly the tickers that get a BAR event |
| BarBuilding.BarBuilder.SeedHistory | monitor/bar_builder.py:186-230 | A seed replaces the history, or changes nothing and answers false; emission is switched on exactly when ten tickers are seeded for the first time |
| DbWriting.EveryCallCounted | db/writer.py:80-200 | At every step of every run, cancellations by `stop` included, enqueue calls = rows written + dropped + queued + scheduled + in flight + rows that cancelled drains held |
| DbWriting.QuietExact | db/writer.py:123-135 | Once nothing is scheduled, queued or in flight, the counters account for every enqueue call if and only if no cancelled drain held a row |
| DbWriting.CancelledRowVanishes | db/writer.py:123-135 | A four-step run after which a row is neither written, dropped, scheduled, queued nor in flight |
| DbWriting.EveryRowOnce | db/writer.py:166-187 | A row is written or dropped at most once, never both, and is then neither scheduled, queued nor pending in any drain, in flight or cancelled |
| DbWriting.WrittenInOrder | db/writer.py:142-182 | While drains do not overlap, the rows written to a table are in the order of its enqueue calls, whatever fails or is dropped |
| DbWriting.OpensOnlyWhenDry | db/writer.py:184-200 | With a threshold of two or more, the breaker opens only if the latest threshold − 1 finished drains wrote nothing |
| DbWriting.DryRunOpens | db/writer.py:184-195 | And no run has threshold finished drains in a row that write nothing without the breaker being open at some point |
| DbLaws.OpenRefuses | db/writer.py:86-92 | From the opening of the breaker until the reset time later it stays open, every row enqueued is lost, and none is scheduled, whatever else happens |
| DbLaws.OpensNow | db/writer.py:189-193 | The drain that opens the breaker stamps it with its own time |
| DbLaws.ReopensAfterReset | db/writer.py:93-112 | The first call at or after the reset time closes the breaker and, with a live loop, schedules its row |
| DbLaws.EnqueueExact | db/writer.py:86-115 | Exactly which calls schedule their row; any other loses it at once |
| DbLaws.FateExact | db/writer.py:104-182 | Over every run a row is stored if and only if its table's turn came back well, and lost if and only if its turn failed, its call was refused, or its callback found the queue full |
| DbLaws.RunBounded | db/writer.py:65-151 | Queue and batches stay within their limits over every run |
| DbLaws.BatchExact | db/writer.py:147-155 | A drain takes the oldest rows, a full batch if there are as many |
| DbWriting.DBWriter.EnqueueRow | db/writer.py:80-115 | Breaker reset, breaker drop, scheduling and drop on a closed loop |
| DbWriting.DBWriter.SafePut | db/writer.py:104-111 | The scheduled callback queues its row or, if the queue is full, drops it |
| DbWriting.DBWriter.TakeBatch | db/writer.py:142-155 | At most a batch is taken from the front of the queue |
| DbWriting.DBWriter.TableTurn | db/writer.py:157-182 | One table's rows of a batch are written or dropped together |
| DbWriting.DBWriter.EndDrain | db/writer.py:184-195 | Counters and breaker at the end of a drain |
| DbWriting.DBWriter.CancelFlush | db/writer.py:127-131 | A cancelled drain leaves with its rows and changes no counter |
| DbWriting.DBWriter.Report | db/writer.py:272-278 | What a stopping session reports as emitted never exceeds the enqueue calls, and equals them exactly when nothing is scheduled, queued or in flight and no cancelled drain held a row |
| Replay.ReplaysAgree | db/projection_builder.py:67-150 | After any events and any rebuilds from an empty table, rebuilding a ticker leaves a row if and only if the report holds its position, with equal quantity, entry, stop, targets and unrealised P&L; a second rebuild changes nothing |
| Replay.FoldsAgree | analytics/compliance.py:530-570 | The two folds agree on every log of the subscriber's shape, reopenings and exits out of place included |
| ReplaySignals.ReportFollowsSignals | db/event_sourcing_subscriber.py:461-504 | The report holds a ticker if and only if its bus signals leave it open, with the entry, stop and targets of the opening signal and the quantity, P&L and status of the latest partial exit since |
| ReplaySignals.StandingExact | db/event_sourcing_subscriber.py:469-475 | They leave it open if and only if its latest OPENED or CLOSED signal is OPENED |
| ReplaySignals.TableFollowsSignals | db/projection_builder.py:67-150 | So does the table, after any events and rebuilds and one more rebuild |
| ReplaySignals.SubscriberReported | db/event_sourcing_subscriber.py:461-504 | The report over a subscriber's log follows the signals of its calls |
| Replay.LaterIgnored | analytics/compliance.py:518-528 | Events after the moment asked about, and those of other aggregates, do not change the report |
| Replay.ModifiedLatest | db/projection_builder.py:72-105 | A replayed state names the latest event that opened, partly exited or closed |
| Replay.MissingQtyDisagrees | analytics/compliance.py:553-558 | The agreement needs the quantity key that the subscriber always writes |
| Replay.RowIdsExact | db/projection_builder.py:67-150 | Over every run of events and rebuilds from an empty table, a row carries the ids of its ticker's latest opening if and only if the ticker was not opened again since the row was inserted |
| Replay.StaleExact | db/projection_builder.py:117-128 | One rebuild: a row with its position's own ids still has them if and only if the ticker was not opened again in between |
| Replay.StaleRow | db/projection_builder.py:117-128 | Open, rebuild, close, open, rebuild: the row describes the second position under the id of the first |
| Replay.PairingIsMatching | db/projection_builder.py:187-216 | With distinct event ids no opening and no closing is used by two completed trades, and the opening comes first |
| Replay.JoinsExactly | db/projection_builder.py:195-215 | The id-based join pairs a closing with the opening right before it in its aggregate |
| Replay.TradesAreJoins | db/projection_builder.py:202-216 | The list of trades used for counting is exactly the join |
| Replay.TradeTerms | db/projection_builder.py:202-257 | A trade copies quantity and entry from the opening and the P&L from the closing |
| Replay.OpensAccounted | db/projection_builder.py:187-216 | On every log openings = trades + positions held + openings overwritten by another opening |
| Replay.ClosesAccounted | db/projection_builder.py:187-236 | On every log closings, and their P&L, are those of the trades and those that closed nothing |
| Replay.AlternatingAccounted | db/projection_builder.py:187-258 | When openings and closings alternate, openings = trades + open positions and the trades' P&L is that of all closings |
| Replay.HeldIffOpen | analytics/compliance.py:537-562 | A position is in the report if and only if the latest opening or closing of its aggregate is an opening |
| Replay.OrderIrrelevant | db/projection_builder.py:220-244 | The order in which the query returns the trades does not change the table |
| Replay.IncrementalRebuild | db/projection_builder.py:224-258 | Rebuilding trades as the log grows gives the table of one rebuild from nothing, in any row order |
| Replay.EventSourcingSubscriber.WriteEvent | db/event_sourcing_subscriber.py:141-216 | Sequence numbers grow over the log and versions within each aggregate, whether or not the row of a call can be built; a failing call uses both numbers up and appends nothing |
| Replay.GaplessExact | db/event_sourcing_subscriber.py:168-210 | Sequence numbers have no gaps up to the counter if and only if no call failed |
| Replay.EventSourcingSubscriber.OnPosition | db/event_sourcing_subscriber.py:461-504 | The appended event, if its row can be built, has the shape the replays rely on |
| Replay.ProjectionBuilder.RebuildPositionState | db/projection_builder.py:45-150 | The loop and the final upsert or delete are the replay the theorems are about |
| Replay.ProjectionBuilder.RebuildCompletedTrades | db/projection_builder.py:224-258 | Rows are inserted unless known; a closing without P&L stops the rebuild after the rows before it |
| Replay.ComplianceReporter.ReportPositions | analytics/compliance.py:496-570 | The report's loop is the other replay |
| ContextCache.CacheExact | monitor/edge_context.py:120-152 | After any history the cache holds a key exactly when the history kept it, with its latest context, and never more than the maximum |
| ContextCache.AnswersExact | monitor/edge_context.py:133-150 | What `get` and `peek` answer, from the history alone |
| ContextCache.CacheGuarantee | monitor/edge_context.py:125-150 | A context not taken is returned as long as fewer than the maximum of distinct other keys were stored since |
| ContextCache.TakenOnce | monitor/edge_context.py:133-141 | A context is handed out by `get` at most once for each store |
| ContextCache.EmptyIdIgnored | monitor/edge_context.py:138-148 | No id and the empty id find and take nothing, and `peek` takes nothing |
| ContextCache.SignalContextCache.StoreContext | monitor/edge_context.py:125-131 | One store with its evictions |
| ContextCache.SignalContextCache.GetContext | monitor/edge_context.py:133-141 | One `get`: the answer, and what is removed |
| ContextCache.SignalContextCache.PeekContext | monitor/edge_context.py:143-148 | One `peek` |
| RateLimiting.FiveAMinute | data_sources/polygon_data.py:71-80 | Over any run a request and the fifth after it are at least a minute apart |
| RateLimiting.WaitExact | data_sources/polygon_data.py:73-79 | The wait is exactly what is missing to a minute since the fifth latest request, and at most five requests are ever in the pruned list |
| RateLimiting.PrunedIsRecent | data_sources/polygon_data.py:74 | Forgetting old requests loses nothing: pruning the whole history would give the same list |
| RateLimiting.PolygonSource.RateLimit | data_sources/polygon_data.py:71-80 | One call prunes and records |
| Metrics.MaxDrawdown | backtests/metrics.py:168-187 | The one-pass result is the minimum of eq[j] − eq[i] over all i ≤ j, and the percentage is of the peak that fall is measured from |
| Metrics.RatioMeans | backtests/metrics.py:182-187 | The drawdown percentage times the peak is the fall, up to sign |
| Metrics.ComputeBy | backtests/metrics.py:189-251 | One summary for each key that occurs, of exactly its trades; trade counts, wins, losses and P&L of the groups add up to the totals of the comprehensions |
| Metrics.GroupTrades | backtests/metrics.py:191-196 | The dict of lists holds each key's trades in order |
| Metrics.GroupsSum | backtests/metrics.py:198-219 | Groups of distinct keys that cover all trades sum to the whole |
| Metrics.SheetIsSums | backtests/metrics.py:116-125 | The running sheet is the source's filtered lengths and sums |
| Metrics.RateMeans | backtests/metrics.py:130-130 | The win rate times the trades is the wins |
| Metrics.AveragesMean | backtests/metrics.py:123-126 | The average win times the wins is what was won, and so for losses |
| Metrics.FactorMeans | backtests/metrics.py:128-143 | The profit factor times what was lost is what was won; without losses the group and overall values as coded |
| Metrics.LayersAreEquity | backtests/metrics.py:221-251 | P&L by layer adds up to the simulator's equity change; the options layer alone is equity less cash |
| Metrics.OneGroupExact | backtests/metrics.py:128-143 | A group that holds every trade has the overall summary if and only if something was lost or nothing was won |
| VwapReclaim.DetectVwapReclaim | vwap_utils.py:48-83 | The two index loops answer true exactly for the documented pattern |
| VwapReclaim.OnlyRecentBars | vwap_utils.py:56-59 | Only the last lookback + 2 bars matter |
| VwapReclaim.SampleExact | vwap_utils.py:56-76 | Both bounds are tight: for every lookback a series on which one bar less loses the reclaim and the dip age is accepted exactly up to its limit |
| VwapReclaim.MoreIsNeverLess | vwap_utils.py:71-76 | A longer lookback or a larger allowed dip age never loses a reclaim |
| FillExits.ExitsAtLevel | backtests/fill_simulator.py:369-400 | Every exit is at the stop, target or close that triggered it, made worse by exactly that exit's slippage for either side, and its P&L is the price change in the position's direction over the traded quantity |
| FillExits.FlatRoundTrip | backtests/fill_simulator.py:253-276 | Opening and closing at one price costs exactly both slippages, long or short |
| FillEstimate.DirectedMoves | backtests/fill_simulator.py:569-579 | The estimate of calls grows and that of puts falls with the price of the underlying |
| FillEstimate.DistanceMoves | backtests/fill_simulator.py:555-576 | For all other kinds only the distance counts: credit positions lose with it, the rest gain |
| FillEstimate.DecayShare | backtests/fill_simulator.py:551-553 | The decay is between 0 and 1 and complete exactly when all bars of the life are used up |
| FillEstimate.StillValue | backtests/fill_simulator.py:555-579 | With the price unmoved the estimate is decay alone |
| FillEstimate.MoveValue | backtests/fill_simulator.py:555-579 | Which multiple of risk or reward a relative move adds, for each kind of position |
| FillEstimate.StillMarketExits | backtests/fill_simulator.py:413-428 | With the price unmoved a credit position takes its profit exactly from five sevenths of its life on and is never stopped, a volatility position is stopped exactly at the end of its life, a debit position is closed by neither |

## Left out

- CrashTolerance: does not cover a swallowed rotation error followed by a replace whose checksum is not
  written; `OneWriteExact` shows that this one combination can lose the state in a single write.
- CrashTolerance: process crashes only; a power loss that undoes data the operating system had accepted
  (the sidecars and the second copy are not fsynced) is not modelled.
- RegistrySafe: assumes a fault-free disk and an existing file. `RegistryOutlivesDeaths` adds processes that die
  and checksums that fail; for disk errors that make a write give up, `AcquireLandsExact`, `ReleaseLandsExact` and
  `ResetLandsExact` give the exact condition of one call.
- OpensAccounted: counts on the order of `event_sequence` within one session; the sequence restarts with the
  process, and logs of several sessions are not modelled.
- WrittenInOrder: before `stop` only, since a second drain can overlap the flush loop after it begins.
- Freshness, `is_stale`, `read_if_changed` and `StalenessGuard`: comparisons with a clock.
- A failing removal of the temporary file: it is never read.
- `reset` within the runs of the registry theorems; it clears what other layers hold.
- The fallback file of the event subscriber.
- `cleanup_stale`, which never matches the entries `try_acquire` writes, and the registry's first-time file
  initialisation.
- `pnl_pct` of a trade (a zero entry price raises), the list of closed options, timestamps of trades, and the
  entry and close callbacks of the simulator.
- The engine's data loading, rolling windows, ATR cache, risk sizing and the thirty-bar warm-up: the signals a
  bar raises are arbitrary, so no signals during warm-up is one of the cases.
- Tick timestamps, `cvol`, the flush of `BarBuilder.stop`, `seed_from_cache`, restarts of a dead flush thread
  and the construction of BAR payloads.
- The writer's logging thresholds, `batches_flushed`, an uninitialised pool, and the insertion of a table's
  rows as anything but all or nothing.
- The projection's `since` filter, its time and current-price columns, and the other projections.
- The order of the list `positions_at` returns, which is that of first opening.
- Sharpe and Calmar ratios, `compute_vwap` and `detect_vwap_breakdown`: single expressions.
- NaN prices, and price and VWAP series of different lengths in the reclaim detector.
- Dashboards, scripts, data-source scrapers, e-mail alerts and SQL plumbing.
