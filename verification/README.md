# Verification of the market-data and strategy core

A Dafny model of the parts of the platform where a mistake is hardest to see by reading one function, with proofs
about whole runs. Check it with `dafny verify dfyconfig.toml`.

| module | what it models |
|---|---|
| `Messages`, `TimescaleWriter`, `Redelivery` | topics, records and rows; the consumer that batches validated records into the database; when a failed record is read again |
| `DlqProcessor`, `Pipeline`, `Recirculation` | the dead-letter processor; the closed loop writer, dead letters, processor, writer; when it ends |
| `SectorCap`, `PortfolioConstruction`, `Rebalancing`, `MomentumSignals` | sizing, sector trimming, trade lists and backtest signals of the momentum strategy |
| `KalmanHedgeRatio`, `PairsTrading` | the hedge-ratio filter; the pairs strategy with its candidate tests, filters and signals |
| `PriceAdjustment` | backward price adjustment and the detection of unprocessed actions |
| `TradingCalendar`, `RebalanceDates` | trading-day search, settlement, counting, missing dates, monthly rebalance dates |
| `BollingerStrategy` | bands, regime filter and the position book of the mean-reversion strategy |
| `RateLimiter` | semaphore, lock and spacing of concurrent API requests |
| `Taxonomy`, `FilingReports` | the XBRL taxonomy index, the pass over a filing's facts and the fold into statements; the statements of a filing said of the text of its facts |
| `RealArithmetic`, `Statistics`, `Sorting`, `Survivorship`, `PriceTable`, `Wrappers` | shared definitions and arithmetic lemmas |

Objects that the program mutates are classes here (`Writer`, `Processor`, `OhlcvTable`, `HedgeRatioFilter`,
`PairsStrategy`, `Strategy`, `TaxonomyMap`, `Parser`), and loops are loops; each is proved equal to a specification on
values, and the theorems are about that specification. What the specification computes is stated once more in the
inputs' own terms: record fields, closes, literal labels, calendar dates, responses. Protocols with failures are state machines: `Run` applies a
sequence of events, and the main lemmas quantify over all sequences. Prices, weights and times are reals. A topic is a
sequence, a table a map, a database session an atomic transaction, and dates are day ordinals.

Some promises of the documentation do not hold of the code. The model keeps the code and says exactly when the promise
is met:

- A batch whose transaction fails is not redelivered when a later batch succeeds: the commit covers it
  (`TimescaleWriter.FailedBatchIsPassed`; exact conditions in `TimescaleWriter.CommitIsSafeIff` and
  `Redelivery.RedeliveredIff`).
- The limit of three retries does not bound the loop through the writer when a record that validates can fail there
  (`Recirculation.RetryLimitWorksIff`).
- A processor without a session or a producer reports letters it drops (`DlqProcessor.NothingLostIff`,
  `DlqProcessor.LetterWithoutProducer`).
- The sector cap does not survive renormalisation (`SectorCap.CapHoldsOnlyIfItHeld`, `PortfolioConstruction.ConstructedAboveTheCap`).
- Lots below 100 shares are sized and traded at different values, so a rebalance can overdraw
  (`Rebalancing.SmallLotsBreakTheBudget`; exact condition in `Rebalancing.SolventIffTargetFits`).
- Cancelling actions look unprocessed, and an empty action list leaves old adjustments in place
  (`PriceAdjustment.DetectionAfterAdjustment`, `PriceAdjustment.OhlcvTable.ApplyAdjustments`).
- The legs of a pairs signal earn when the spread moves further from its mean and lose when it returns
  (`PairsTrading.HedgeEarnsDivergence`, `PairsTrading.SignalsBetOnDivergence`), the opposite sides to those taken in
  `pyhron/strategies/pairs_trading.py`.
- Without skipped months the formation window is one day short (`MomentumSignals.ScoreIsGrowth`,
  `MomentumSignals.UnskippedWindowIsShort`).
- The prior balance sheet of a quarterly filing carries the quarter's date (`Taxonomy.PriorBalanceDate`,
  `Taxonomy.QuarterlyPriorBalance`).
- Dimensional XBRL contexts are not classified as other and can displace totals
  (`Taxonomy.DimensionalContextsAreKept`, `Taxonomy.TotalSurvivesIff`, `Taxonomy.DimensionDisplacesTotal`).

The holiday table is a parameter: results about the calendar hold for every table, and the monthly dates are strictly
increasing for those in which every month of the range has a trading day (`RebalanceDates.MonthlyDatesIncrease`).

## Model

| member | source | states |
|---|---|---|
| `TimescaleWriter.NoSilentLoss` | data_platform/consumers/timescaledb_writer.py:99-132 | in every run, with database, offset-commit and dead-letter faults and crashes anywhere, each record below the committed offset is in the table, or dead-lettered, or its own dead-letter send failed; the committed offset never passes a buffered record |
| `TimescaleWriter.ExactlyOnce` | data_platform/consumers/timescaledb_writer.py:82-126 | in every run without a failed transaction, whatever the batch boundaries, crashes, lost offset commits and redeliveries, the table holds, at each key no other topic supplies, what inserting the flushed prefix of the topic once (first record wins) puts there; the committed offset stays within that prefix |
| `TimescaleWriter.FirstRecordIsStored` | data_platform/consumers/timescaledb_writer.py:82-126 | in every run without a failed transaction, a key that no other topic asks for is in the table if and only if a flushed record asks for it, and its row is the first such record, column by column |
| `TimescaleWriter.RowsComeFromRecords` | data_platform/consumers/timescaledb_writer.py:134-251 | in every run each row is, column by column, a record produced to one of the three topics, under that record's own key |
| `TimescaleWriter.RowsNeverChange` | data_platform/consumers/timescaledb_writer.py:160-165 | between any two points of any run, a row present at the first is present and the same at the second |
| `TimescaleWriter.CommitIsSafeIff` | data_platform/consumers/timescaledb_writer.py:94-120 | in every run, a commit, of a full or a timed-out batch, leaves everything below the committed offsets stored if and only if, before it, every record of earlier rolled-back batches has its key in the table or in the batch |
| `TimescaleWriter.WriteBatchKeys` | data_platform/consumers/timescaledb_writer.py:104-117 | a transaction adds exactly the keys of its batch |
| `Redelivery.RedeliveredIff` | data_platform/consumers/timescaledb_writer.py:117-132 | a record of a rolled-back batch can be read again after the next restart, and is read by every run that gets past it without one more restart, if and only if no flush between its rollback and that restart has committed |
| `Redelivery.MustReadIff` | data_platform/consumers/timescaledb_writer.py:90-97 | positions move one offset at a time: runs cannot pass an offset undelivered exactly when they have not passed it yet |
| `Redelivery.Meanwhile` | data_platform/consumers/timescaledb_writer.py:90-132 | between the two, the committed offsets stay where they were until a commit passes the record |
| `Redelivery.CommittedStays` | data_platform/consumers/timescaledb_writer.py:119-120 | committed offsets never go back in any run |
| `TimescaleWriter.FailedBatchIsPassed` | data_platform/consumers/timescaledb_writer.py:128-132 | a concrete run in which a failed batch is followed by a good one: the failed record is below the committed offset, not stored and not dead-lettered |
| `TimescaleWriter.InvAlways` | data_platform/consumers/timescaledb_writer.py:82-132 | the invariant behind delivery holds in every reachable state: the batch is the in-order stretch of each log up to the position, and everything before it is accounted for |
| `TimescaleWriter.Refold` | data_platform/consumers/timescaledb_writer.py:160-165 | inserting again a stretch that overlaps what was already folded gives the fold of the longer prefix |
| `TimescaleWriter.Writer.constructor` | data_platform/consumers/timescaledb_writer.py:82-88 | a fresh consumer is the initial state of the protocol |
| `TimescaleWriter.Writer.OnMessage` | data_platform/consumers/timescaledb_writer.py:90-97 | one turn of the consumer loop on the mutable fields is exactly one receive step of the protocol, under every fault; below 1000 messages and before the timeout it only buffers the record, otherwise the batch is emptied |
| `TimescaleWriter.Writer.ProcessBatch` | data_platform/consumers/timescaledb_writer.py:99-132 | a flush of the fields is the flush of the protocol; without a crash or fault before the database the table gains, for each new key, the columns of the first record of the batch written under it, provided every record is acceptable, and is unchanged otherwise |
| `TimescaleWriter.Writer.RollBack` | data_platform/consumers/timescaledb_writer.py:128-132 | a failed transaction leaves table and offsets alone, empties the batch and sends it to the dead letters |
| `TimescaleWriter.Writer.CommitOffsets` | data_platform/consumers/timescaledb_writer.py:117-132 | after the transaction: the position is committed, or the batch is dead-lettered although stored, or the process restarts |
| `TimescaleWriter.Writer.HandleFailure` | data_platform/consumers/timescaledb_writer.py:128-132 | the handler appends, in order, one dead letter per record of the batch whose send succeeds, on the end-of-day dead-letter topic, holding the record, the error message and the source "batch_write_failure", and commits nothing |
| `TimescaleWriter.WriteRecords` | data_platform/consumers/timescaledb_writer.py:104-117 | the transaction equals the three first-wins folds in order; it goes through if and only if every record has its required fields and no null key column; old rows stay, and the row under a new key has, column by column, the fields or defaults of the first record written under it, end-of-day bars before statements before intraday bars; the row counts add up |
| `TimescaleWriter.WriteBars` | data_platform/consumers/timescaledb_writer.py:134-166 | for both bar topics: raises if and only if some record lacks a required field or has a null key column; otherwise old rows stay, the key of every record is present (date or time, symbol, exchange with its default), and a new row has the open, high, low, close, volume and adjusted close of the first record with its key |
| `TimescaleWriter.WriteFundamentals` | data_platform/consumers/timescaledb_writer.py:168-200 | the same for statements: key from symbol, period end or fiscal date, and statement type with its default; the five figures of the first record with the key; the row counts add up |
| `TimescaleWriter.WriteBatchByRecord` | data_platform/consumers/timescaledb_writer.py:104-117 | what a transaction does, said of the fields of its records alone |
| `Messages.EntryIsTheRecord` | data_platform/consumers/timescaledb_writer.py:149-159 | a record has a row if and only if its required fields are there and no key column is null, and the columns are the record's own fields or the stated defaults, for all three topics |
| `Messages.InsertAllByRecord` | data_platform/consumers/timescaledb_writer.py:160-165 | inserting a list keeps old rows, adds the keys of its acceptable records, and gives each new key the columns of the first record with it |
| `Messages.InsertAllConcat` | data_platform/consumers/timescaledb_writer.py:160-166 | inserting a batch after another equals inserting their concatenation: batch boundaries do not matter |
| `Messages.InsertAllKeeps` | data_platform/consumers/timescaledb_writer.py:160-166 | inserting never changes a present row and makes every inserted key present |
| `Messages.InsertAllLocal` | data_platform/consumers/timescaledb_writer.py:160-166 | what an insertion does at a key depends on the table at that key only, and nothing happens there without a record of that key |
| `DlqProcessor.StepConserves` | data_platform/consumers/dlq_processor.py:109-163 | consuming any letter keeps the sum of what was sent and buried and what is still destined, and lowers the consumptions left by exactly one |
| `DlqProcessor.DrainIsDestiny` | data_platform/consumers/dlq_processor.py:88-163 | whatever the interleaving of the three topics, a run that empties the queue has sent and buried exactly the destinies of the initial letters (as multisets) in exactly the destined number of consumptions |
| `DlqProcessor.RunsAreBounded` | data_platform/consumers/dlq_processor.py:109-163 | no run is longer than the destined consumptions, at most four per letter, and a run that has not emptied the queue is strictly shorter |
| `DlqProcessor.NothingLostIff` | data_platform/consumers/dlq_processor.py:109-192 | after a drain every letter is in exactly one place, none lost, if and only if the session and producer each letter needs were connected |
| `DlqProcessor.LetterWithoutProducer` | data_platform/consumers/dlq_processor.py:154-163 | without a producer a fresh letter is gone after one consumption |
| `DlqProcessor.RetryKeepsDestiny` | data_platform/consumers/dlq_processor.py:154-157 | re-queueing a letter with a higher counter postpones its fate by one consumption and changes nothing else about it |
| `DlqProcessor.ParseIgnoresCount` | data_platform/consumers/dlq_processor.py:125-140 | re-validation sees the same candidate whatever the retry counter says |
| `DlqProcessor.Processor.ProcessRecord` | data_platform/consumers/dlq_processor.py:109-163 | disposition, new counter and effect on the topics for each of the three outcomes, field by field: buried with its counter from three tries on; sent on as its own record with the counter raised if it has all required fields and they validate; otherwise queued again with only the counter changed |
| `DlqProcessor.ProcessFromFields` | data_platform/consumers/dlq_processor.py:109-163 | what handling a letter does, said of its own fields: the validator is shown exactly the record's symbol, date, four prices, adjusted close, volume and previous close |
| `DlqProcessor.FreshLetterFate` | data_platform/consumers/dlq_processor.py:86-163 | a letter without a counter that never validates is consumed four times and buried once, with the counter at three |
| `DlqProcessor.Processor.WritePermanent` | data_platform/consumers/dlq_processor.py:165-192 | one row is added when a session is connected, and none otherwise |
| `DlqProcessor.Processor.Drain` | data_platform/consumers/dlq_processor.py:88-107 | the loop over an arbitrary order of letters terminates with an empty queue and every destiny carried out |
| `Pipeline.NothingDisappears` | data_platform/consumers/timescaledb_writer.py:99-134 | over every run of producers, writer, crashes and processor: produced plus duplicated copies of a record equal those still on the way plus written plus buried plus lost, records being the same up to the retry counter |
| `Pipeline.WrittenIsStored` | data_platform/consumers/timescaledb_writer.py:108-117 | every record the books count as written has a row under the key of its own topic |
| `Pipeline.LoopIsBounded` | data_platform/consumers/dlq_processor.py:116-163 | from any reachable state, a run of the closed loop with f failed flushes has at most Weight * 6^f steps, so finitely many failures let it come to rest |
| `Pipeline.BooksAtRest` | data_platform/consumers/timescaledb_writer.py:90-97 | at rest nothing is unread and no letter waits: produced plus duplicated equals written, buried, lost and the unfinished batch, which only a later message flushes |
| `Recirculation.RetryLimitWorksIff` | data_platform/consumers/dlq_processor.py:116-163 | from any reachable state the closed runs have a common bound, whatever fails, if and only if nothing can recirculate: no producer, or no letter below the limit that validates and no validating record in reach of a failing flush |
| `Recirculation.RetriesAreUnlimited` | data_platform/consumers/timescaledb_writer.py:246-253 | otherwise there are runs of every length that bury and write nothing, because the wrapper drops the retry counter |
| `Recirculation.QuietIsBounded` | data_platform/consumers/dlq_processor.py:142-163 | if nothing can recirculate, runs have at most Weight * 6^u steps for u unread messages, however often the writer fails |
| `Recirculation.LoneRecord` | data_platform/consumers/dlq_processor.py:124-163 | with one unread record on the way, runs are bounded if and only if it does not validate or no producer is connected |
| `Recirculation.LoneRecordReachable` | data_platform/consumers/timescaledb_writer.py:82-97 | such states are reachable for every record and topic |
| `Pipeline.FlushKeepsBalance` | data_platform/consumers/timescaledb_writer.py:99-134 | every outcome of a flush moves the batch between log, table, dead letters and losses without changing the balance |
| `Pipeline.ConsumeBalanced` | data_platform/consumers/dlq_processor.py:109-163 | so does every outcome of consuming a letter |
| `Pipeline.StepWeighs` | data_platform/consumers/timescaledb_writer.py:94-132 | a failed flush at most sextuples the remaining weight less one, and every other step of the loop lowers the weight |
| `PortfolioConstruction.LotsAreMaximal` | strategy_engine/idx_momentum_cross_section_strategy.py:98-129 | the two nested floors give the largest number of lots that the target value pays for: it is affordable and one more is not |
| `PortfolioConstruction.ConstructPortfolio` | strategy_engine/idx_momentum_cross_section_strategy.py:446-531 | for a non-negative net asset value and position cap: raises if and only if nothing is selected, or a selected symbol has no quote or a lot size of 0; otherwise there is one row, in rank order, for exactly the selected symbols of which one lot fits both the equal share and the position cap, with the symbol's sector, score and rank, and a value of whole lots that fits both while one more lot does not |
| `PortfolioConstruction.ConstructedFromInputs` | strategy_engine/idx_momentum_cross_section_strategy.py:471-531 | the same of the specification, from the selection and the inputs alone: the sector cap changes neither lots nor values |
| `PortfolioConstruction.BuiltFromInputs` | strategy_engine/idx_momentum_cross_section_strategy.py:484-515 | before the sector cap, each weight times the net asset value is the value of the row |
| `PortfolioConstruction.ReindexedIff` | strategy_engine/idx_momentum_cross_section_strategy.py:471 | the ranking holds exactly the filtered symbols with a score, each with its own |
| `PortfolioConstruction.ReindexedCount` | strategy_engine/idx_momentum_cross_section_strategy.py:471 | each of them once, if the filtered list has no duplicates |
| `PortfolioConstruction.PortfolioFitsNav` | strategy_engine/idx_momentum_cross_section_strategy.py:471-531 | a constructed portfolio never costs more than the net asset value it was built for |
| `PortfolioConstruction.SelectedCountIsLeast` | strategy_engine/idx_momentum_cross_section_strategy.py:474-475 | between one and all, the number selected is the least that reaches the requested fraction |
| `PortfolioConstruction.TopIsBest` | strategy_engine/idx_momentum_cross_section_strategy.py:471-475 | the selection is in descending order, no rejected symbol scores higher, selection and rest are the whole ranking, and the number selected is the requested one |
| `SectorCap.ApplySectorCap` | strategy_engine/idx_momentum_cross_section_strategy.py:673-705 | the ten-pass loop with its inner per-sector loop equals one simultaneous trim followed by one renormalisation |
| `SectorCap.TrimSectors` | strategy_engine/idx_momentum_cross_section_strategy.py:692-697 | trimming the overweight sectors one after the other equals trimming them at once |
| `SectorCap.TrimmedMeetsCap` | strategy_engine/idx_momentum_cross_section_strategy.py:687-697 | one pass brings every sector to a positive cap or below |
| `SectorCap.TrimmedTwice` | strategy_engine/idx_momentum_cross_section_strategy.py:687-697 | a second pass changes nothing, whatever the cap, so ten passes equal one |
| `SectorCap.CappedClosedForm` | strategy_engine/idx_momentum_cross_section_strategy.py:673-705 | each sector ends at k * min(weight, cap), with k times the sum of min(weight, cap) equal to the original total, k at least 1 and k = 1 if and only if the cap held before |
| `SectorCap.TotalKept` | strategy_engine/idx_momentum_cross_section_strategy.py:699-705 | the total weight is unchanged |
| `SectorCap.RatiosKept` | strategy_engine/idx_momentum_cross_section_strategy.py:692-703 | two rows of one sector keep their weight ratio, and nothing but weights changes |
| `SectorCap.SectorsAfterCapping` | strategy_engine/idx_momentum_cross_section_strategy.py:673-705 | a sector at or below the cap never loses weight, the order of sectors is kept, and the heaviest sector never grows |
| `SectorCap.CapHoldsOnlyIfItHeld` | strategy_engine/idx_momentum_cross_section_strategy.py:678-705 | no sector exceeds the cap on output if and only if none did on input, in which case nothing changes: the documented enforcement does not hold |
| `SectorCap.OverweightStaysOver` | strategy_engine/idx_momentum_cross_section_strategy.py:699-705 | a sector above the cap on input is above it on output |
| `PortfolioConstruction.ConstructedAboveTheCap` | strategy_engine/idx_momentum_cross_section_strategy.py:446-531 | a portfolio constructed under a cap of 0.4 with a sector above it: a concrete case |
| `Rebalancing.ComputeRebalanceTrades` | strategy_engine/idx_momentum_cross_section_strategy.py:533-591 | the trades are exactly the changed symbols, one each: the delta is the lots of the symbol's last row less those held, the action its sign, the value 100 shares a lot at the price; sells first and buys by descending score, whatever order the symbols are visited in |
| `Rebalancing.TargetsAreLastRows` | strategy_engine/idx_momentum_cross_section_strategy.py:551-555 | the target lots and scores of a symbol are those of its last row |
| `Rebalancing.NavConserved` | strategy_engine/idx_momentum_cross_section_strategy.py:568-591 | executing trades at the given prices conserves cash plus holdings |
| `Rebalancing.PlanReachesTarget` | strategy_engine/idx_momentum_cross_section_strategy.py:559-591 | executing a plan ends exactly at the target lots |
| `Rebalancing.CashIsUnimodal` | strategy_engine/idx_momentum_cross_section_strategy.py:587-591 | because sells come first, cash never falls below the smaller of its start and its end |
| `Rebalancing.SolventIffTargetFits` | strategy_engine/idx_momentum_cross_section_strategy.py:541-591 | cash stays non-negative after every prefix if and only if it starts so and the target costs at most the net asset value |
| `Rebalancing.SelfFinancingRebalance` | strategy_engine/idx_momentum_cross_section_strategy.py:471-591 | with no lot size below 100, running the emitted trades toward a portfolio constructed for the book's own net asset value never overdraws and ends at the target |
| `Rebalancing.SmallLotsBreakTheBudget` | strategy_engine/idx_momentum_cross_section_strategy.py:487-500 | with one share to the lot, a portfolio constructed for exactly the cash at hand has a plan, and every plan toward it overdraws: a concrete book, price and portfolio |
| `MomentumSignals.ScoreIsGrowth` | strategy_engine/idx_momentum_cross_section_strategy.py:357-375 | the start price compounded by the score is the end price; the window of 21 days a month spans the full formation period if and only if months are skipped, and is one day shorter otherwise |
| `MomentumSignals.ScoredIff` | strategy_engine/idx_momentum_cross_section_strategy.py:357-375 | a symbol has a score if and only if there are enough rows and it is priced, not at 0, at both ends of the window |
| `MomentumSignals.BeforeRows` | strategy_engine/idx_momentum_cross_section_strategy.py:595-609 | what is available on a date are all rows strictly before it, in order |
| `MomentumSignals.ColumnCells` | strategy_engine/idx_momentum_cross_section_strategy.py:408 | a column holds all of a symbol's cells in the order of the rows |
| `MomentumSignals.UnskippedWindowIsShort` | strategy_engine/idx_momentum_cross_section_strategy.py:366-373 | one month of formation and none skipped gives the growth over 20 days: a concrete table |
| `MomentumSignals.FilterUniverse` | strategy_engine/idx_momentum_cross_section_strategy.py:377-444 | the filter loop yields the specified list in column order, or raises when an empty column gets to the price test |
| `MomentumSignals.FilteredIff` | strategy_engine/idx_momentum_cross_section_strategy.py:377-444 | a symbol is in that list if and only if it is a column with enough history, listed on the day, with a last price of at least 100, and the average of its last 63 trading values reaches the minimum |
| `MomentumSignals.FilterRaisesNever` | strategy_engine/idx_momentum_cross_section_strategy.py:408-426 | with at least one day of required history it never raises |
| `MomentumSignals.CheckSymbol` | strategy_engine/idx_momentum_cross_section_strategy.py:406-442 | the chain of early exits keeps a symbol if and only if it passes those tests, or raises |
| `MomentumSignals.GenerateSignalsFull` | strategy_engine/idx_momentum_cross_section_strategy.py:277-336 | the backtest loop equals the date-by-date specification and stops at the first date that raises |
| `MomentumSignals.SignalsForDate` | strategy_engine/idx_momentum_cross_section_strategy.py:279-320 | one iteration of that loop, with its early continues |
| `MomentumSignals.SignalsAreAPortfolio` | strategy_engine/idx_momentum_cross_section_strategy.py:279-320 | the signals of a date are the rows of a portfolio built from the filtered universe, its scores and the last prices before the date, each with the date and the size of that universe |
| `MomentumSignals.NoLookAhead` | strategy_engine/idx_momentum_cross_section_strategy.py:244-336 | two pairs of tables that agree before a horizon give identical signals for every rebalance date up to it, through filter, scores, last prices and construction |
| `MomentumSignals.HistoryIsStable` | strategy_engine/idx_momentum_cross_section_strategy.py:595-609 | appending later rows and later dates only appends signals: the earlier ones are a prefix |
| `KalmanHedgeRatio.StepClearsDenominator` | strategy_engine/idx_pairs_cointegration_strategy.py:70-84 | the update in division-free form; the denominator is at least ve and the variance stays positive |
| `KalmanHedgeRatio.RecursionIsBatchRegression` | strategy_engine/idx_pairs_cointegration_strategy.py:64-84 | with delta = 0, after any observations beta * (ve + sum x^2) = sum xy and R * (ve + sum x^2) = ve |
| `KalmanHedgeRatio.EstimateMinimisesRidgeCost` | strategy_engine/idx_pairs_cointegration_strategy.py:64-84 | so the estimate is the one minimiser of the ridge regression cost |
| `KalmanHedgeRatio.VarianceBounded` | strategy_engine/idx_pairs_cointegration_strategy.py:80-83 | R stays positive and below ve / m^2 once the last |x| is at least m |
| `KalmanHedgeRatio.EstimateStaysInHull` | strategy_engine/idx_pairs_cointegration_strategy.py:80-82 | beta never leaves the hull of 0 and the slopes y / x seen, for any delta |
| `KalmanHedgeRatio.ErrorContracts` | strategy_engine/idx_pairs_cointegration_strategy.py:80-82 | if y = b x throughout and x^2 >= mm, then |beta - b| <= (ve / (mm * delta + ve))^n |b| after n observations |
| `KalmanHedgeRatio.HedgeRatioFilter.constructor` | strategy_engine/idx_pairs_cointegration_strategy.py:64-68 | a filter starts at beta 0, R 1 |
| `KalmanHedgeRatio.HedgeRatioFilter.Update` | strategy_engine/idx_pairs_cointegration_strategy.py:70-84 | the fields after an update are one step of the recursion, and the new beta is returned |
| `PairsTrading.PairsStrategy.constructor` | strategy_engine/idx_pairs_cointegration_strategy.py:99-127 | a strategy starts without filters |
| `PairsTrading.PairsStrategy.Reset` | strategy_engine/idx_pairs_cointegration_strategy.py:129-136 | no filter survives a reset |
| `PairsTrading.PairsStrategy.GenerateSignals` | strategy_engine/idx_pairs_cointegration_strategy.py:153-235 | the loop over the candidates leaves every traded pair with a filter fed its own windows from the start state only, once per time it is listed; a candidate has its two legs if and only if it is traded and the distance of its last spread from the average is at least the entry level times (deviation + 1e-9), in the order of the candidates; the legs are opposite, the first long below the average, their score times (deviation + 1e-9) is the distance, and the spread is the second close less the hedge ratio times the first |
| `PairsTrading.SignalsAreHedges` | strategy_engine/idx_pairs_cointegration_strategy.py:211-232 | the same of the specification, from closes and hedge ratios alone, duplicate candidates included |
| `PairsTrading.FeedIsRepeated` | strategy_engine/idx_pairs_cointegration_strategy.py:202-209 | a filter has seen the pair's own window over and over, once per time the pair is listed, and nothing else |
| `PairsTrading.FormationRows` | strategy_engine/idx_pairs_cointegration_strategy.py:159-160 | the formation rows are the last ones of those dated up to the day |
| `PairsTrading.CommonDays` | strategy_engine/idx_pairs_cointegration_strategy.py:189-197 | the common closes are those of all days that have both, in order, first symbol first |
| `Statistics.DeviationsCancel` | strategy_engine/idx_pairs_cointegration_strategy.py:212 | the mean is the one value from which the deviations add up to 0 |
| `PairsTrading.PairsStrategy.FeedPair` | strategy_engine/idx_pairs_cointegration_strategy.py:202-208 | one pair: its filter is created if needed and continues over the window, and no other filter changes |
| `KalmanHedgeRatio.FitWindow` | strategy_engine/idx_pairs_cointegration_strategy.py:206-208 | the inner loop continues the recursion over the window |
| `PairsTrading.FeedOfDistinctPairs` | strategy_engine/idx_pairs_cointegration_strategy.py:184-208 | with distinct pairs each filter has seen exactly its own window |
| `PairsTrading.SignalsAreIndependent` | strategy_engine/idx_pairs_cointegration_strategy.py:184-232 | with distinct pairs the signals of a pair depend on its own window only, neither on other pairs nor on earlier calls |
| `PairsTrading.LegsComeInPairs` | strategy_engine/idx_pairs_cointegration_strategy.py:210-232 | signals come in adjacent pairs on opposite sides, with the score of the pair's window, which reaches the entry level |
| `PairsTrading.RatiosNonNegative` | strategy_engine/idx_pairs_cointegration_strategy.py:206-214 | on positive closes every hedge ratio signalled is non-negative |
| `PairsTrading.HedgeEarnsDivergence` | strategy_engine/idx_pairs_cointegration_strategy.py:210-215 | at the hedge ratio, a pair of legs earns exactly what the spread moves on in the direction of its deviation from the mean and loses exactly what it moves back |
| `PairsTrading.SignalsBetOnDivergence` | strategy_engine/idx_pairs_cointegration_strategy.py:184-232 | so does every pair of signals of a call on positive closes |
| `PriceAdjustment.OhlcvTable.ApplyAdjustments` | data_platform/equity_ingestion/action_processor.py:56-125 | the in-place descending loop leaves adjusted_close(b) = close(b) * product of the factors of the actions after b, and returns the sum over the bars of the actions after them; an empty list leaves the column as it was; after a single action the bars before it are scaled: split prices times the ratio are the closes, dividend prices times the last close before the day are the closes times that close less the amount |
| `PriceAdjustment.EachActionScalesOnce` | data_platform/equity_ingestion/action_processor.py:44-54 | without actions the prices are the closes, and adding an action anywhere in the list scales the prices of exactly the bars before it, once, by its ratio or by its amount against the last close before it; a ratio of 0 and a non-positive close leave them alone |
| `PriceAdjustment.SingleAction` | data_platform/equity_ingestion/action_processor.py:44-54 | after a single dividend the last bar before it has its close less the amount; after a single split the adjusted close times the ratio is the close |
| `PriceAdjustment.OhlcvTable.ApplySorted` | data_platform/equity_ingestion/action_processor.py:76-116 | the loop over the sorted actions, from the reset column |
| `PriceAdjustment.OhlcvTable.ApplyOne` | data_platform/equity_ingestion/action_processor.py:84-116 | one action rewrites the prefix before its date with the running product and advances the per-bar specification by that action |
| `PriceAdjustment.OhlcvTable.UpdateFirst` | data_platform/equity_ingestion/action_processor.py:104-115 | an UPDATE rewrites exactly the bars before the date |
| `PriceAdjustment.AdjustmentRound` | data_platform/equity_ingestion/action_processor.py:84-116 | a running product over ever shorter prefixes agrees with the per-bar product, also for actions on one day |
| `PriceAdjustment.OrderIrrelevant` | data_platform/equity_ingestion/action_processor.py:76-79 | the product after a bar depends on the actions as a multiset only |
| `PriceAdjustment.SameAdjustedCloses` | data_platform/equity_ingestion/action_processor.py:76-116 | so do the whole column and the returned count: list order and same-day ties do not matter |
| `PriceAdjustment.OhlcvTable.DetectUnprocessedActions` | data_platform/equity_ingestion/action_processor.py:127-171 | the loop reports, in order, exactly the given actions with a last bar before them whose close equals its adjusted close |
| `PriceAdjustment.Reported` | data_platform/equity_ingestion/action_processor.py:147-171 | an action is in the report if and only if it was given and its last preceding bar looks unadjusted |
| `PriceAdjustment.DetectionAfterAdjustment` | data_platform/equity_ingestion/action_processor.py:147-171 | after an adjustment with positive closes, an action is reported if and only if a bar precedes it and the product of the factors after that bar is 1 |
| `PriceAdjustment.NothingLeftToDetect` | data_platform/equity_ingestion/action_processor.py:147-171 | if closes are positive, every split has a ratio above 1 and every dividend is positive and less than the last close before it, detection over the adjusted actions reports nothing |
| `PriceAdjustment.CancellingSplitsAreReported` | data_platform/equity_ingestion/action_processor.py:147-171 | two cancelling splits are both reported although they were applied: a concrete case |
| `TradingCalendar.NextTradingDay` | strategy_engine/idx_trading_calendar.py:84-89 | the search loop terminates and returns the next trading day |
| `TradingCalendar.PrevTradingDay` | strategy_engine/idx_trading_calendar.py:92-97 | the search loop terminates and returns the previous trading day |
| `TradingCalendar.FirstFrom` | strategy_engine/idx_trading_calendar.py:84-89 | the first trading day at or after a day: a trading day with none in between |
| `TradingCalendar.LastUpTo` | strategy_engine/idx_trading_calendar.py:92-97 | the last trading day at or before a day: a trading day with none in between |
| `TradingCalendar.NearestTradingDay` | strategy_engine/idx_trading_calendar.py:84-97 | next and previous are characterised as the least and the greatest trading day beyond the argument |
| `TradingCalendar.PrevOfNext` | strategy_engine/idx_trading_calendar.py:84-97 | previous of next is the identity on trading days, and the nearest trading day otherwise; likewise the other way round |
| `TradingCalendar.SearchBound` | strategy_engine/idx_trading_calendar.py:84-97 | for any finite holiday set the search is at most (7 * holidays ahead + 10) / 5 days long |
| `TradingCalendar.GetSettlementDate` | strategy_engine/idx_trading_calendar.py:139-147 | the counting loop returns the trading day after the next |
| `TradingCalendar.SettlementIsMonotone` | strategy_engine/idx_trading_calendar.py:139-147 | later trades never settle earlier |
| `TradingCalendar.TradingDays` | strategy_engine/idx_trading_calendar.py:128-136 | the trading days of a half-open range: all of them, in order, no others |
| `TradingCalendar.TradingDaysBetween` | strategy_engine/idx_trading_calendar.py:128-136 | the counting loop counts them |
| `TradingCalendar.CountingIsAdditive` | strategy_engine/idx_trading_calendar.py:128-136 | the days of adjoining ranges concatenate, so counts add |
| `TradingCalendar.TwoDaysToSettlement` | strategy_engine/idx_trading_calendar.py:128-147 | exactly two trading days lie from a trading day up to its settlement |
| `TradingCalendar.ComputeMissingDates` | scripts/backfill_historical_data.py:31-45 | the loop returns in order exactly the trading days of the range not on file, and their number plus those on file is the number of trading days in the range |
| `RebalanceDates.MonthsAreConsecutive` | strategy_engine/idx_trading_calendar.py:101-125 | month starts under Gregorian month lengths and leap years are consecutive, 28 to 31 days apart |
| `RebalanceDates.OrdinalsCountDays` | strategy_engine/idx_trading_calendar.py:101-125 | from each day of the Gregorian calendar to the next, month ends and leap years included, the ordinal goes up by one |
| `RebalanceDates.WeekendsAreDated` | strategy_engine/idx_trading_calendar.py:79-81 | trading days are the days without a holiday that are neither two nor three days after a Thursday, counted from Thursday, 1 January 1970 |
| `RebalanceDates.GetMonthlyRebalanceDates` | strategy_engine/idx_trading_calendar.py:101-125 | the dates of a range are the specified list |
| `RebalanceDates.MonthLoop` | strategy_engine/idx_trading_calendar.py:110-125 | the loop with its year rollover returns that list and terminates |
| `RebalanceDates.ListIsSound` | strategy_engine/idx_trading_calendar.py:101-125 | each date lies in the range and opens its own month |
| `RebalanceDates.ListIsComplete` | strategy_engine/idx_trading_calendar.py:101-125 | each first trading day of a month that lies in the range is in the list |
| `RebalanceDates.RebalanceDatesExact` | strategy_engine/idx_trading_calendar.py:101-125 | the dates are exactly the first trading days of months in [start, end], for every holiday set |
| `RebalanceDates.IncreasingUnlessSpilled` | strategy_engine/idx_trading_calendar.py:101-125 | for any holiday table, the list is strictly increasing if and only if no listed month is without a trading day |
| `RebalanceDates.MonthlyDatesIncrease` | strategy_engine/idx_trading_calendar.py:101-125 | if every month that ends within the range has a trading day, the dates are strictly increasing |
| `RebalanceDates.ClosedMonthRepeats` | strategy_engine/idx_trading_calendar.py:113-119 | a table that closes a whole month makes a date repeat |
| `BollingerStrategy.LastCloseDeviation` | strategy_engine/idx_bollinger_mean_reversion_strategy.py:243-247 | Samuelson's inequality for the last close of any window: n (x - mean)^2 <= (n - 1)^2 variance |
| `BollingerStrategy.EntryNeedsFeasibleBand` | strategy_engine/idx_bollinger_mean_reversion_strategy.py:243-247 | close at or below the lower band implies bb_std^2 * n <= (n - 1)^2, for every price series |
| `BollingerStrategy.BoundIsAttained` | strategy_engine/idx_bollinger_mean_reversion_strategy.py:243-247 | the bound is sharp: a series with one final drop touches the band if and only if bb_std^2 * n <= (n - 1)^2 |
| `BollingerStrategy.InfeasibleBandNeverEnters` | strategy_engine/idx_bollinger_mean_reversion_strategy.py:294-362 | with parameters beyond the bound, every entry a call emits is for a constant window, whatever the regime and the book |
| `BollingerStrategy.SignalOrigin` | strategy_engine/idx_bollinger_mean_reversion_strategy.py:294-364 | every signal of a call is about a symbol of the universe and follows from its closes |
| `BollingerStrategy.Strategy.constructor` | strategy_engine/idx_bollinger_mean_reversion_strategy.py:84-115 | a strategy starts with no open position and an empty history |
| `BollingerStrategy.Strategy.ComputeSignals` | strategy_engine/idx_bollinger_mean_reversion_strategy.py:249-364 | the loop over the universe updates the book, and the whole history replays to it; each tradable symbol listed once gets an exit if and only if its position is open and n times its last close is at least the sum of the last n, an entry if and only if it is closed, the index is not at or below its own average, and the last close plus the band width is at most the average, and no other signal; the book changes accordingly |
| `BollingerStrategy.CallSettles` | strategy_engine/idx_bollinger_mean_reversion_strategy.py:249-364 | the same of the specification, symbol by symbol from the closes |
| `BollingerStrategy.RegimeIff` | strategy_engine/idx_bollinger_mean_reversion_strategy.py:199-232 | the regime is bearish if and only if the index is present, has a full window, and n times its last close is at most the sum of the last n |
| `BollingerStrategy.ScanAt` | strategy_engine/idx_bollinger_mean_reversion_strategy.py:286-362 | a symbol's signal and its place in the book depend on its own closes and position only |
| `BollingerStrategy.BookIsLastEntries` | strategy_engine/idx_bollinger_mean_reversion_strategy.py:286-364 | the open positions are exactly the symbols whose last signal is an entry, at that entry's close |
| `BollingerStrategy.SignalsAlternate` | strategy_engine/idx_bollinger_mean_reversion_strategy.py:312-362 | per symbol signals alternate entry and exit over the whole history, and every exit carries the close of its entry |
| `BollingerStrategy.EntriesSuppressed` | strategy_engine/idx_bollinger_mean_reversion_strategy.py:286-362 | no entry is emitted when the regime check fails, on any data, book and parameters |
| `RateLimiter.AtMostMaxRpsActive` | data_platform/adapters/eodhd_adapter.py:302-354 | over all interleavings of any number of calls, at most five are in flight or backing off and at most one is spacing |
| `RateLimiter.WindowBound` | data_platform/adapters/eodhd_adapter.py:305-311 | any window of length w holds at most floor(5 w) + 1 request slots |
| `RateLimiter.AttemptsPerCall` | data_platform/adapters/eodhd_adapter.py:302-354 | no call takes more than three slots, and the wake-up after a back-off always finds an attempt left |
| `RateLimiter.OutcomeFromAnswers` | data_platform/adapters/eodhd_adapter.py:302-354 | in every run a call is finished if and only if one of its answers was not temporary or it has had three; it returns if and only if that answer is a 200, and 429, 401 or 403, and 404 have their own errors; an unfinished call has had at most two answers, all temporary |
| `RateLimiter.WaitsAreTimed` | data_platform/adapters/eodhd_adapter.py:305-351 | a call waits two seconds after its first temporary answer and four after its second, and spaces its request to a fifth of a second after the last one, no later |
| `RateLimiter.CallsAreBounded` | data_platform/adapters/eodhd_adapter.py:302-354 | a call makes at most 5 * MAX_RETRIES + 1 steps of its own, whatever the others do |
| `RateLimiter.NoDeadlock` | data_platform/adapters/eodhd_adapter.py:303-354 | as long as a call is unfinished some call can move, now or after some time |
| `RateLimiter.WorkIsBounded` | data_platform/adapters/eodhd_adapter.py:302-354 | a run of n started calls has at most (5 * MAX_RETRIES + 1) * n steps besides the passing of time |
| `RateLimiter.RestsIffAllDone` | data_platform/adapters/eodhd_adapter.py:302-354 | no call can move, now or after any time, if and only if all calls are done |
| `RateLimiter.InvAlways` | data_platform/adapters/eodhd_adapter.py:302-354 | permits, lock ownership, slot spacing and slot counts stay consistent in every reachable state |
| `Taxonomy.TaxonomyMap.constructor` | data_platform/equity_ingestion/arelle_xbrl_parser.py:100-105 | the dictionary built in place holds under every name the entries listing it, in order |
| `Taxonomy.TaxonomyMap.Resolve` | data_platform/equity_ingestion/arelle_xbrl_parser.py:151-157 | the index lookup returns what a linear scan of all entries would |
| `Taxonomy.IndexAgreesWithScan` | data_platform/equity_ingestion/arelle_xbrl_parser.py:100-157 | grouping by name preserves the first match for every name and context |
| `Taxonomy.ScanFindsFirst` | data_platform/equity_ingestion/arelle_xbrl_parser.py:93-98 | the scan finds the entry before which none matches, and nothing if and only if none matches |
| `Taxonomy.Parser.ParseOne` | data_platform/equity_ingestion/arelle_xbrl_parser.py:267-323 | the index lookup and the early exits give the outcome of the specification, which `FilingReports.OutcomeFromText` states from the text of the fact |
| `Taxonomy.Parser.ParseModel` | data_platform/equity_ingestion/arelle_xbrl_parser.py:229-265 | the pass keeps the admitted facts in order and the rejected ones as errors, and the counters, the unmapped set and the banking flag describe exactly the kept facts |
| `Taxonomy.NameRoundTrip` | data_platform/equity_ingestion/idx_xbrl_scraper.py:851 | the local name comes back from the raw concept if and only if it has no colon |
| `Taxonomy.DimensionalContextsAreKept` | data_platform/equity_ingestion/arelle_xbrl_parser.py:369-397 | whatever is put before, into or after a primary context id, the fact stays in a primary context, although the documentation says such facts are dropped: which one, by the words in the id |
| `Taxonomy.CollectFacts` | data_platform/equity_ingestion/idx_xbrl_scraper.py:842-858 | the two dictionaries hold per context the value of the first fact for each metric and each name |
| `Taxonomy.AdaptParseResult` | data_platform/equity_ingestion/idx_xbrl_scraper.py:823-893 | up to four statements in the fixed order, none empty; an unknown period raises |
| `Taxonomy.FirstFactWins` | data_platform/equity_ingestion/idx_xbrl_scraper.py:847-858 | the value kept for a metric is that of the first fact of the filing that a linear scan maps to it in that context, and there is none if and only if no fact does |
| `Taxonomy.StatementMetric` | data_platform/equity_ingestion/idx_xbrl_scraper.py:842-893 | end to end: an emitted statement of a context has a metric if and only if some fact of the filing supplies it, and its value is the first such fact's |
| `Taxonomy.EmittedIff` | data_platform/equity_ingestion/idx_xbrl_scraper.py:870-891 | every emitted statement is the non-empty sheet of one context, and every such sheet is emitted |
| `Taxonomy.StatementsDistinct` | data_platform/equity_ingestion/idx_xbrl_scraper.py:870-891 | at most four statements, none without metrics, each for a context of its own |
| `Taxonomy.StatementsExact` | data_platform/equity_ingestion/idx_xbrl_scraper.py:870-891 | a context has an emitted statement if and only if some fact of the filing is mapped in it |
| `Taxonomy.TotalSurvivesIff` | data_platform/equity_ingestion/idx_xbrl_scraper.py:855-858 | where earlier suppliers of the metric report other values, a total reaches the sheet if and only if there are none |
| `Taxonomy.DimensionDisplacesTotal` | data_platform/equity_ingestion/idx_xbrl_scraper.py:855-858 | a dimensional fact anywhere before the total, with the dimension anywhere in its context id, keeps the total out of the sheet |
| `Taxonomy.PriorBalanceDate` | data_platform/equity_ingestion/idx_xbrl_scraper.py:864-891 | the prior balance sheet is dated at the prior year end if and only if the filing is annual |
| `Taxonomy.QuarterlyPriorBalance` | data_platform/equity_ingestion/idx_xbrl_scraper.py:864-891 | a first-quarter filing dates it at the end of March: a concrete case |
| `FilingReports.ProcessFiling` | data_platform/equity_ingestion/idx_xbrl_scraper.py:673-721 | from the facts of a filing to its statements and raw facts, said of the text of the facts: a sheet (income or balance, this year or the one before) has a metric if and only if some admitted fact whose context id has the words of the sheet is the first listed by the taxonomy under it, with the value of the first such fact; statements have that kind, year, quarter and date and are never empty; raw facts likewise by local name; an unknown period raises |
| `FilingReports.StatementsFromText` | data_platform/equity_ingestion/idx_xbrl_scraper.py:842-893 | the same of the specification |
| `FilingReports.OutcomeFromText` | data_platform/equity_ingestion/arelle_xbrl_parser.py:267-323 | a fact is admitted if and only if it is not nil and has an acceptable unit, a value, a name and a context; a foreign currency is an error; value, full name, context and mapping are those of the fact |
| `FilingReports.ContextIff` | data_platform/equity_ingestion/arelle_xbrl_parser.py:369-397 | an id is of a sheet if and only if it has "Duration", or "Instant" and not "Duration", and "CurrentYear", or not "CurrentYear" and one of the two prior-year words |
| `FilingReports.PriorContexts` | data_platform/equity_ingestion/arelle_xbrl_parser.py:390-397 | prior-year durations are prior income, prior-year and prior-end-year instants prior balance, with anything before, within and after that adds none of the other words |
| `FilingReports.UnitIff` | data_platform/equity_ingestion/arelle_xbrl_parser.py:353-364 | a unit is refused if and only if it names a currency and neither the rupiah nor pure nor shares; three of the seven markers add nothing |
| `FilingReports.RawFromText` | data_platform/equity_ingestion/idx_xbrl_scraper.py:850-854 | each raw sheet holds, for every name, the value of the first admitted fact of that sheet whose full name ends in it |
| `FilingReports.BankingFromText` | data_platform/equity_ingestion/arelle_xbrl_parser.py:242-264 | a filing counts as a bank's if and only if one of its admitted facts has one of the eight banking names |

## Left out

- Network, Kafka client, SQL engine, Arelle, pandas, logging and metrics internals; partition rebalancing, and the consumer timing behind "the batch timed out", which is a free choice of each receive step.
- Floating-point and Decimal rounding: arithmetic is exact over the reals, so claims about equality are claims about exact arithmetic.
- A crash of the writer's process between two dead-letter sends of one failed batch, and every crash or failed send inside the dead-letter processor, where a record could be sent twice.
- TimescaleWriter.ExactlyOnce: excludes keys that another topic's log also supplies; bars of two topics collide only when their exchanges are set alike.
- DlqProcessor.Processor.Drain: retry counters are integers where present; a counter of another type raises in the source. The validator and the conversions before it are one abstract predicate on the fields they read, and `decimal.InvalidOperation`, which the source does not catch, is outside the model. A permanent row is the letter and its counter, without timestamps.
- Pipeline.NothingDisappears: "lost" contains exactly the records whose dead-letter send failed and the letters dropped for want of a session or producer; "duplicated" those a lost offset commit or a restart brought back.
- Dead-letter topics the processor does not subscribe to, and the validation consumer that feeds both, whose commit discipline is that of the writer with weaker claims.
- PortfolioConstruction.ConstructPortfolio: the statement from the inputs is for a net asset value and position cap of at least 0; ties in a score keep one fixed order, which pandas does not promise.
- SectorCap.ApplySectorCap: a sector of weight 0 under a negative cap turns NaN in the source and keeps its weight here; a portfolio constructed with positive lot sizes has no such sector. The closed form and what follows from it are about a positive cap.
- MomentumSignals.GenerateSignalsFull: a start price of 0 gives an infinite score in the source and none here; volumes are unused by the source; counts of months are not negative.
- Trading costs, taxes and the delay of settlement in `Rebalancing`; the claims are about lots, since trimming changes weights but not lots.
- PairsTrading.PairsStrategy.GenerateSignals: the cointegration p-value and the population standard deviation are parameters, the deviation non-negative; the confidence of a signal is left out.
- KalmanHedgeRatio.HedgeRatioFilter.Update: requires a non-zero denominator, where the source's floats turn infinite or NaN; with ve > 0 and delta >= 0 it never is zero (`KalmanHedgeRatio.StepClearsDenominator`).
- PriceAdjustment.OhlcvTable.ApplyAdjustments: bars are those of one symbol in time order; the SQL row counts are the numbers of bars before each date.
- RebalanceDates.GetMonthlyRebalanceDates: here and in the trading calendar, no `date.min` or `date.max` overflow; the holiday set is a parameter instead of the literal table.
- BollingerStrategy.EntryNeedsFeasibleBand: the band factor is non-negative and the standard deviation is the non-negative root of the sample variance; for a constant window the bands coincide with the price and the bound says nothing.
- BollingerStrategy.Strategy.constructor: periods are at least 1; what a rolling window of length 0 yields is the data library's business.
- BollingerStrategy.Strategy.ComputeSignals: the statement from the closes is for symbols listed once in the universe; left out are confidence values and metadata other than close and entry price.
- The rate limiter is a model on values, not a class, because the source interleaves tasks at its awaits; cancellation of a waiting task is left out, and the initial request time is 0 on the loop's clock, which starts at 0.
- Taxonomy.Parser.ParseOne: units are given in rendered form, values as numbers or none, and lower-casing covers ASCII; symbol, period, decimals and context dates are carried along by the source and left out here, as is the reading of the YAML file. A rejected fact leaves its unit instead of a message.
- Taxonomy.AdaptParseResult: years have four digits; the source URL and filing period are left out of statements.
- The other ingesters, ORM models, scorers, encryption, backup, seeding scripts and the web application: input and output, constants, or facts settled by one branch.
