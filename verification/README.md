# Flux backtester: a Dafny model

Flux lets a user build a trading strategy in the browser, save it, and backtest it
against historical prices on the server. This project models the core of both halves.

The server side covers:

- the validation of a strategy configuration;
- position sizing;
- the stop-loss and take-profit rules;
- signal generation from indicator columns;
- the portfolio simulator with leverage and margin calls;
- `run_backtest`;
- the backtest endpoint: request reading, data checks, date coverage, and the ten-backtest retention;
- the CSV loader;
- the accessors of a stored backtest;
- the rewrite of the database URL and the CORS origin list in the settings.

The browser side covers:

- the strategy builder store: add, update, remove, save, load and delete;
- the indicator parameter table and presets;
- the condition row, entry selector and exit selector editors;
- the backtest page: validation, reply handling and the win rate;
- the ticker selector and the static ticker table;
- the settings modal: profile, password and tier;
- the e-mail verification page.

Values crossing the wire are modelled as a small JSON datatype. The datatype has Python
truthiness for the server (`Json`) and JavaScript truthiness for the browser (`JsValues`).
Prices are reals. A NaN cell is a missing value (`None`). Dates are day numbers.

The modules follow the program's files:

- **Server engine:**
  - `StrategyValidation` for `validate_strategy_config`;
  - `StrategyConfig` for the engine's reading of a validated configuration;
  - `PositionSizing`;
  - `ExitChecks`;
  - `Signals`;
  - `Simulator`;
  - `Backtest`.
- **Server endpoint and storage:**
  - `BacktestView` for `views.py`;
  - `FetchErrors`;
  - `CsvLoader`;
  - `BacktestRecord` for `models.py`;
  - `DbSettings` for `settings.py`.
- **Browser:**
  - `BuilderStore`;
  - `BuilderTypes`;
  - `ConditionRow`;
  - `EntrySelector`;
  - `ExitSelector`;
  - `BacktestPage`;
  - `TickerSelector`;
  - `TickerData`;
  - `SettingsModal`;
  - `EmailVerification`.
- **Shared vocabulary and text helpers:**
  - `Vocabulary`;
  - `MarketData`;
  - `Json`;
  - `JsValues`;
  - `Numbers`;
  - `Text`;
  - `Seqs`;
  - `Wrappers`.

## Model

| member | source | states |
|---|---|---|
| StrategyValidation.CheckCondition | backend/api/backtester.py:20-33 | a condition passes exactly when it is an object with an `indicator` among the known indicator names and an `operator` among the known operators; a failure is, in this order, not an object, no `indicator`, no `operator`, an unknown operator, an unknown indicator, each exactly when the earlier checks pass and that one fails |
| StrategyValidation.CheckConditions | backend/api/backtester.py:11-33 | the conditions from a given index on pass exactly when each is valid; a failure names the first invalid one |
| StrategyValidation.CheckPart | backend/api/backtester.py:69-98 | a stop-loss or take-profit part passes exactly when it is an object with a `type` in that part's vocabulary and a numeric `value` |
| StrategyValidation.CheckEntry | backend/api/backtester.py:43-58 | the entry rule passes exactly when it is an object with a known `positionSizing` and a numeric `sizingValue` |
| StrategyValidation.CheckExit | backend/api/backtester.py:61-98 | the exit rule passes exactly when it is an object and each part it has is valid |
| StrategyValidation.Validate | backend/api/backtester.py:6-98 | a configuration is accepted if and only if it is well formed: conditions, then action LONG/SHORT, then entry, then exit |
| StrategyValidation.ConditionErrorIsFirst | backend/api/backtester.py:11-40 | a condition error is reported before any action, entry or exit error |
| StrategyValidation.LaterErrorsImplyConditionsOk | backend/api/backtester.py:36-98 | an action, entry or exit error is only reported when the conditions are valid |
| StrategyConfig.ToNumber | backend/api/backtester.py:102-108 | a value is read as a number exactly when it is a Python number (booleans included) |
| StrategyConfig.NumberOr | backend/api/backtester.py:102-103 | a missing key reads as its default; a present key reads only when it holds a number |
| StrategyConfig.AtrColumn | backend/api/backtester.py:204-220 | the ATR column read by an ATR stop is always an `atr_` column |
| StrategyConfig.DecodeCondition | backend/api/backtester.py:382-390 | a decoded condition's indicator and operator print back as the configuration's names; `value` defaults to 0, `compareIndicator` to "Close", and `compareValue` to the condition's own value |
| StrategyConfig.DecodeConditions | backend/api/backtester.py:379-496 | every condition is decoded, in order |
| StrategyConfig.DecodeEntry | backend/api/backtester.py:100-151 | the entry rule decodes exactly when `maxPositionSize`, which every sizing kind divides, is a number when present, and `riskPerTrade` is too under risk-based sizing; the sizing kind and value are the configuration's, and the cap (and the risk, under risk-based sizing) is the field's value or its default |
| StrategyConfig.DecodeStopLoss | backend/api/backtester.py:161-230 | a stop loss decodes exactly unless it is a support/resistance stop with a non-numeric `supportResistanceLevel`; it keeps its type and value, and a support/resistance stop's level is the field's value or 0 |
| StrategyConfig.DecodeTakeProfit | backend/api/backtester.py:232-311 | a take profit decodes exactly unless it is a risk:reward target over a fixed-percentage stop with a non-numeric `riskRewardRatio`, or an indicator target whose `indicator` is a list or dict; it keeps its type and value, and such a ratio is the field's value or 2 |
| StrategyConfig.TargetColumn | backend/api/backtester.py:286-301 | a hashable take-profit indicator that names a known indicator maps to its column, anything else to `Close` |
| StrategyConfig.IndicatorTargetDefaults | backend/api/backtester.py:283-308 | an indicator target with neither `indicator` nor `indicatorValue` watches the `rsi` column and fires above 70 |
| StrategyConfig.DecodeCombinator | backend/api/backtester.py:373-377 | conditions combine with OR exactly when `logicalOperator` is "OR"; anything else, including an absent key, means AND |
| StrategyConfig.Decode | backend/api/backtester.py:315-353 | a well-formed configuration decodes exactly when every optional field that its configured branch reads can be computed with; the result keeps each condition as decoded on its own, the combinator, the side, the entry rule, and which exit parts exist, each decoded on its own |
| Vocabulary.ParseIndicator | frontend/src/components/builder/types.ts:3-13 | parsing an indicator name succeeds exactly on the known names and prints back as the same name |
| Vocabulary.IndicatorNameParses | backend/api/backtester.py:395-406 | every indicator's name parses back to that indicator |
| Vocabulary.ParseOperator | backend/api/backtester.py:360-369 | parsing an operator succeeds exactly on the eight operator names, and prints back |
| Vocabulary.OperatorNameParses | frontend/src/components/builder/types.ts:15-23 | every operator's name parses back to that operator |
| Vocabulary.ParseSide | backend/api/backtester.py:36-40 | a side parses exactly from "LONG" or "SHORT" |
| Vocabulary.ParseSizing | backend/api/backtester.py:53-55 | a sizing kind parses exactly from the five sizing names |
| Vocabulary.ParseStopLoss | backend/api/backtester.py:77-79 | a stop-loss kind parses exactly from the six stop-loss names |
| Vocabulary.ParseTakeProfit | backend/api/backtester.py:93-95 | a take-profit kind parses exactly from the four take-profit names |
| PositionSizing.PositionSize | backend/api/backtester.py:100-151 | with no sizing rule, 2% of the portfolio is committed; otherwise never more than the cap, and exactly the requested amount or the cap |
| PositionSizing.PositionSizeScales | backend/api/backtester.py:100-151 | scaling the portfolio scales the position size by the same factor |
| PositionSizing.VolatilityWithoutAtr | backend/api/backtester.py:136-147 | without an ATR value the volatility factor is 50: the size is the smaller of portfolio × value% × 50 and the cap |
| PositionSizing.FullPortfolioIsCappedByDefault | test_position_sizing.py:15-27 | 100% fixed-percentage sizing on 10000 commits only 1000 under the default 10% cap |
| PositionSizing.FullPortfolioWithFullCap | test_position_sizing.py:42-53 | with a 100% cap, 100% sizing commits the whole 10000 |
| ExitChecks.StopLossHit | backend/api/backtester.py:161-230 | a trailing-dollar stop never fires; a fixed-dollar stop fires only at a loss |
| ExitChecks.TakeProfitHit | backend/api/backtester.py:232-311 | a risk-reward target fires only together with a fixed-percentage stop; an indicator target without an indicator value never fires |
| ExitChecks.ShouldExit | backend/api/backtester.py:153-313 | without rules nothing exits; a position exits exactly when a stop or a target fires, and the take-profit reason wins when both do |
| ExitChecks.FixedStopIsPriceLevel | backend/api/backtester.py:166-174 | a fixed-percentage stop fires exactly when the price crosses entry × (1 ∓ p%) against the position |
| ExitChecks.RiskRewardIsPercentTarget | backend/api/backtester.py:257-281 | a risk-reward target fires exactly when the gain in percent reaches stop% × ratio |
| ExitChecks.TrailingFromEntryIsFixedStop | backend/api/backtester.py:186-202 | a trailing stop handed the entry price as its extreme fires exactly when the fixed-percentage stop of the same size would |
| ExitChecks.RetraceFromEntry | backend/api/backtester.py:186-202 | measured from the entry price, the retrace is the loss in percent, or 0 while in profit |
| MarketData.Cell | backend/api/backtester.py:409-413 | a cell has a value only in a column the frame has |
| MarketData.IndicatorColumnInjective | backend/api/backtester.py:395-406 | distinct indicators read distinct columns |
| Signals.UpperNameFindsColumn | backend/api/backtester.py:382-406 | upper-casing a known indicator name and looking it up finds that indicator's column |
| Signals.MainColumn | backend/api/backtester.py:382-410 | every condition reads its own indicator's column |
| Signals.Evaluate | backend/api/backtester.py:379-496 | an evaluated condition gives one truth value per bar and reads a column the frame has |
| Signals.Evaluated | backend/api/backtester.py:494-500 | at most one series per condition, each as long as the table |
| Signals.GenerateSignals | backend/api/backtester.py:355-521 | one signal per bar, either hold or the strategy's side; with no evaluated condition every bar holds |
| Signals.EvaluatedMatchesConditions | backend/api/backtester.py:379-505 | the series kept are exactly those of the conditions not skipped: there is one when some condition is evaluated; all hold at a bar exactly when every evaluated condition does; one holds exactly when some evaluated condition does |
| Signals.SignalMeaning | backend/api/backtester.py:498-517 | under AND a bar signals the strategy's side exactly when some condition is evaluated and every evaluated condition holds there; under OR exactly when some evaluated condition holds there |
| Signals.CrossSwap | backend/api/backtester.py:419-430 | crossing above is crossing below with the two lines swapped |
| Signals.CrossExclusive | backend/api/backtester.py:419-430 | no bar crosses both ways, and the first bar never crosses |
| Signals.BetweenOutsideComplement | backend/api/backtester.py:457-460 | on a defined value `outside` is the negation of `between`; on NaN both are false |
| Signals.NotEqualsComplement | backend/api/backtester.py:360-369 | `not_equals` is the negation of `equals` at every bar, NaN included |
| Signals.AllImpliesAny | backend/api/backtester.py:502-505 | every bar that signals under AND also signals under OR |
| Signals.SingleConditionCombinatorIrrelevant | backend/api/backtester.py:502-505 | with one evaluated condition AND and OR give the same signals |
| Signals.SkippedConditionIrrelevant | backend/api/backtester.py:494-496 | a skipped condition does not change the signals |
| Signals.MissingColumnSkips | backend/api/backtester.py:412-413 | a condition whose indicator column is missing is skipped |
| Simulator.ClampLeverage | backend/api/backtester.py:530 | leverage always ends up in [1, 10], and a value inside the range is kept as it is |
| Simulator.Enter | backend/api/backtester.py:574-640 | opening a position logs an open trade on that bar and side; marked at the entry price, the account is worth the cash it had |
| Simulator.ExitCash | backend/api/backtester.py:676-695 | closing at the entry price gives back the committed portfolio, and a position holding shares comes out at or above (strictly above) it exactly when the price moved its way (strictly) |
| Simulator.Exit | backend/api/backtester.py:643-700 | an exit flattens the position, logs a close on the same side, and turns the position's value into cash |
| Simulator.Track | backend/api/backtester.py:186-202 | the running extreme becomes the better of the old extreme and the new price |
| Simulator.MarginOut | backend/api/backtester.py:725-769 | a margin call zeroes the cash, flattens the position and logs a margin-call trade |
| Simulator.Act | backend/api/backtester.py:572-700 | a bar's trading decision leaves the equity curve unchanged |
| Simulator.Settle | backend/api/backtester.py:702-723 | settling a bar appends the marked-to-market value, floored at zero |
| Simulator.Step | backend/api/backtester.py:559-771 | with the three corrections of the findings applied: each bar appends exactly one equity value and leaves the earlier ones unchanged; a bar whose close is NaN or not positive carries the last value over |
| Simulator.Initial | backend/api/backtester.py:525-543 | the initial state satisfies the simulation invariant |
| Simulator.StepKeepsInv | backend/api/backtester.py:559-771 | with the three corrections applied, every bar preserves the invariant: equity length, non-negative equity, and a trade log that alternates open and close on one side with increasing bars |
| Simulator.RunBars | backend/api/backtester.py:559-771 | with the three corrections applied, after n bars the invariant holds |
| Simulator.Simulate | backend/api/backtester.py:559-815 | with the three corrections applied: an empty table is reported as no data; a completed run has one equity value per bar, all non-negative, a return of at least -100%, and a trade count equal to its log |
| Simulator.ReturnAtLeastMinus100 | backend/api/backtester.py:793 | a non-negative final equity never reports a return below -100% |
| Simulator.ExitCashAsWrittenAgreement | backend/api/backtester.py:679-685 | the source's exit cash equals the realised value exactly when the share count times the entry price equals the committed portfolio times the leverage |
| Simulator.ExitCashExample | backend/api/backtester.py:679-685 | a concrete long trade, 2% of 10000 committed at 100 without leverage and closed at 95, where the source's exit cash is 190 while the account is worth 9990 |
| Simulator.InvalidBarExample | backend/api/backtester.py:568-570 | a concrete short position where the source's invalid-bar equity (-1000) differs from the last recorded equity (10000) |
| Simulator.TrailingStopExample | backend/api/backtester.py:545-557 | a concrete 5% trailing stop that should fire from the running high but does not fire from the entry price |
| Simulator.TrackKeepsExtreme | backend/api/backtester.py:186-202 | the running extreme never falls behind the entry price or any price since |
| Backtest.RunBacktest | backend/api/backtester.py:315-353 | with the three corrections of the findings applied to the simulation: an empty table, non-positive cash and an invalid configuration are errors with those reasons; otherwise the run completes, fails exactly when an optional field that its branch reads cannot be computed with, or reports no data after indicators; a completed report is consistent with its bars |
| Backtest.LeverageClampIdempotent | backend/api/backtester.py:530 | clamping the leverage before the run changes nothing, since the simulator clamps it itself |
| Backtest.NoSignalsNoTrades | backend/api/backtester.py:559-779 | a strategy whose conditions are all skipped never trades: its equity stays at the starting cash and its return is 0% |
| Backtest.IdleSimulation | backend/api/backtester.py:781-815 | with no signal on any bar the run completes with no trades, flat equity at the starting cash and a 0% return |
| Backtest.IdleRun | backend/api/backtester.py:559-771 | every idle bar keeps the account flat and records the starting cash |
| Backtest.IdleStep | backend/api/backtester.py:702-723 | one idle bar records the unchanged cash |
| BacktestView.ReadInputs | backend/api/views.py:105-124 | a body that is no object or an amount that does not convert is an unexpected error; otherwise the request is accepted exactly when the strategy id is truthy, the cash positive, the leverage in [1, 10] and the ticker a non-blank string, with each value as read or defaulted; each refusal (missing id, cash, leverage, ticker) happens exactly when the earlier checks pass and its own fails, and a truthy ticker that is no string is an unexpected error |
| BacktestView.CheckInputs | backend/api/views.py:113-124 | the checks in order: each refusal exactly when the earlier checks pass and its own fails; acceptance exactly when all pass, with the values unchanged |
| BacktestView.StrategyIdRequired | backend/api/views.py:114-116 | a request lacking the strategy id is refused with that error whenever its amounts convert |
| BacktestView.RequestDefaults | backend/api/views.py:105-111 | a request naming only the strategy backtests AAPL with 10000 of cash at 1x |
| BacktestView.CheckData | backend/api/views.py:142-161 | the data passes exactly when the price columns are present and there are at least 30 rows; the errors are consistent with the table |
| BacktestView.OverlapDays | backend/api/views.py:183-185 | the overlap is never negative, never longer than the request, and the whole request when the data covers it |
| BacktestView.CoverageShare | backend/api/views.py:188 | the coverage share lies in [0, 1] |
| BacktestView.ClassificationByCoverage | backend/api/views.py:195-237 | a range warning is given exactly when coverage is below 80%; full range exactly at 95% or more; no overlap exactly below 80% with zero overlap days |
| BacktestView.ClassificationEdges | backend/api/views.py:195-237 | an empty or reversed request is always a warning; data spanning the request is full range |
| BacktestView.OldestIndex | backend/api/views.py:274-276 | the record removed is the first one with the earliest creation time |
| BacktestView.Retain | backend/api/views.py:270-293 | at ten stored backtests the oldest is dropped before the new one is added; the count never exceeds ten once it is at most ten |
| BacktestView.RetentionBound | backend/api/views.py:270-293 | any number of runs keeps a user at ten stored backtests or fewer |
| BacktestView.Post | backend/api/views.py:103-301 | with the simulation corrected as in the findings, the answer is 200 exactly on success; an error leaves the stored backtests unchanged; a success stores the new record under retention |
| BacktestView.SuccessMeansChecked | backend/api/views.py:114-259 | a 200 answer implies every request and data check passed and the strategy was well formed |
| BacktestView.PipelineOk | backend/api/views.py:126-259 | a report comes only from checked inputs and data and a well-formed strategy, with a trade count equal to its log |
| BacktestView.SavedRecordReadsBack | backend/api/views.py:278-293 | after a successful run whose record was created, the newest stored record reads back the report's trade count |
| BacktestView.AnswerIgnoresSaveFailure | backend/api/views.py:291-295 | whether storing the record succeeds never changes the answer |
| BacktestView.OnlyConfigurationRaises | backend/api/views.py:254-259 | past the data checks the engine can only fail over the configuration |
| BacktestView.CashAfterInt | backend/api/views.py:110 | a positive amount survives `int()` as positive exactly when it is at least 1 |
| BacktestView.PageTickerNotBlank | backend/api/views.py:123 | a ticker the page accepted is still non-blank after the endpoint trims it |
| BacktestView.PageRequestAccepted | frontend/src/components/backtester/BacktestPage.tsx:65-107 | a request the page lets through passes the endpoint's request checks exactly when its cash is at least 1; below that it is refused for cash |
| FetchErrors.FetchError | backend/api/views.py:239-246 | a message mentioning "api key" in any case is reported as an API-key error, others by their not-found/invalid wording |
| FetchErrors.FetchErrorAsWrittenNeverApiKey | backend/api/views.py:241 | the source's test looks for "API key" in lower-cased text, so it never matches |
| FetchErrors.ApiKeyMessageMisread | backend/api/views.py:239-246 | an API-key message is classified as not-found/invalid by the source but as an API-key error by the corrected test |
| FetchErrors.ApiKeyMessageExample | backend/api/views.py:241 | a concrete "Invalid API key" message on which the two differ |
| CsvLoader.CombinedHasEveryRow | backend/api/csv_data_loader.py:50-72 | every row of every readable file is in the concatenation |
| CsvLoader.CombinedRowsFromFiles | backend/api/csv_data_loader.py:50-72 | every concatenated row comes from some file |
| CsvLoader.InsertByDate | backend/api/csv_data_loader.py:75 | inserting a row keeps the date order and adds exactly that row |
| CsvLoader.SortByDate | backend/api/csv_data_loader.py:75 | sorting gives a date-ordered permutation of the input |
| CsvLoader.DedupBy | backend/api/csv_data_loader.py:75 | deduplication keeps a subsequence with each key once, covering every key of the input |
| CsvLoader.DedupBySorted | backend/api/csv_data_loader.py:75 | deduplication keeps the date order |
| CsvLoader.FilterSorted | backend/api/csv_data_loader.py:78-81 | the date filter keeps the date order |
| CsvLoader.Prepared | backend/api/csv_data_loader.py:72-81 | the prepared rows are date-ordered, inside the requested range, and all come from the files |
| CsvLoader.Load | backend/api/csv_data_loader.py:21-104 | an unsupported timeframe and unreadable files are errors exactly in those cases; a success holds at least 30 prepared rows with their range summary; a too-short table reports its row count |
| CsvLoader.LoadResult | backend/api/csv_data_loader.py:72-104 | a loaded table is date-ordered, inside the requested range, and at least 30 rows long |
| CsvLoader.LoadKeepsEveryRow | backend/api/csv_data_loader.py:72-81 | with whole-row deduplication, every in-range row of every file is loaded |
| CsvLoader.LoadRowsDistinct | backend/api/csv_data_loader.py:75 | the loaded rows are pairwise distinct |
| CsvLoader.EqualValuesDropped | backend/api/csv_data_loader.py:75 | two days with identical prices collapse into one under the source's deduplication |
| CsvLoader.AvailableTickers | backend/api/csv_data_loader.py:108-120 | without a data directory there are none; otherwise every sub-directory appears upper-cased, and every listed name is a ticker directory |
| CsvLoader.AvailableTimeframes | backend/api/csv_data_loader.py:122-134 | without the ticker directory there are none; otherwise every sub-directory is listed, and only sub-directories are |
| BacktestRecord.Stat | backend/api/models.py:32-48 | a stored statistic reads back its value or the default; when the results are absent or lack statistics it reads the default; it raises exactly where Python's `in` or `.get` would |
| BacktestRecord.CompletedRoundTrip | backend/api/models.py:32-48 | the accessors read back the return, the final equity and the trade count that a completed run stored |
| BacktestRecord.FailedDefaults | backend/api/models.py:32-48 | a failed run, or results without statistics, read as N/A, 0 and N/A |
| BacktestRecord.Insert | backend/api/models.py:26-27 | inserting adds exactly one record |
| BacktestRecord.InsertSorted | backend/api/models.py:26-27 | insertion keeps a listing newest first |
| BacktestRecord.Listing | backend/api/models.py:26-27 | a listing is a newest-first permutation of the records |
| BacktestRecord.ListingEnds | backend/api/views.py:304-314 | the listing starts with the newest backtest and ends with the oldest |
| DbSettings.DisableSsl | backend/backend/settings.py:79-103 | an empty URL is left alone; any other URL ends with `sslmode=disable` |
| DbSettings.BaseKept | backend/backend/settings.py:87-99 | the part before the first question mark is never changed |
| DbSettings.RewrittenParams | backend/backend/settings.py:87-99 | the rewritten URL has one query, whose parameters are the old non-SSL ones in order, followed by `sslmode=disable` |
| DbSettings.RewriteIdempotent | backend/backend/settings.py:87-99 | rewriting a rewritten URL changes nothing |
| DbSettings.RewriteIsRebuilt | backend/backend/settings.py:87-99 | every rewritten URL is its base, its kept parameters and `sslmode=disable` |
| DbSettings.AppendedShape | backend/backend/settings.py:96-99 | appending keeps the base and the old parameters, adding `sslmode=disable` last |
| DbSettings.AllowedOrigins | backend/backend/settings.py:210-234 | the CORS origins are the defaults, plus the frontend URL exactly when it is set and non-empty |
| BuilderStore.AddCondition | frontend/src/components/builder/builderStore.ts:68-79 | a new MACD-crossing condition is appended; the earlier conditions and the rest of the state are unchanged |
| BuilderStore.UpdateCondition | frontend/src/components/builder/builderStore.ts:81-87 | only conditions with that id change, and only in that field |
| BuilderStore.RemoveCondition | frontend/src/components/builder/builderStore.ts:89-91 | removal drops exactly the conditions with that id, keeping the others in order |
| BuilderStore.Reset | frontend/src/components/builder/builderStore.ts:93 | reset restores the initial configuration |
| BuilderStore.AddThenRemove | frontend/src/components/builder/builderStore.ts:68-91 | adding a condition with a fresh id and removing that id restores the conditions |
| BuilderStore.UpdateUnknownIdIsNoop | frontend/src/components/builder/builderStore.ts:81-87 | updating an id no condition has changes nothing |
| BuilderStore.UpdateKeepsIds | frontend/src/components/builder/builderStore.ts:81-87 | updating a field other than `id` keeps every condition's id |
| BuilderStore.ErrorMessage | frontend/src/components/builder/builderStore.ts:116-150 | a failed save reports a text value unless it is a 400 with an object body; a 400 body that supplies no message reports the status text |
| BuilderStore.ErrorPrecedence | frontend/src/components/builder/builderStore.ts:116-150 | a 400 object body's message is taken from `non_field_errors[0]`, else a truthy `detail`, else a truthy `error`, else a `name[0]` mentioning "strategy limit"; a 400 without any of these, and any other status, report the status; without a status the error's own message, then the generic one |
| BuilderStore.SaveStrategy | frontend/src/components/builder/builderStore.ts:95-152 | a blank name, no conditions or a name already saved (ignoring case) is refused without a request, the taken name with `A strategy named "<name>" already exists.`; otherwise the trimmed name and the configuration are posted and the reply's failure is reported |
| BuilderStore.FetchSaved | frontend/src/components/builder/builderStore.ts:154-161 | a fetched list replaces the saved strategies; a failure leaves them |
| BuilderStore.LoadStrategy | frontend/src/components/builder/builderStore.ts:163-182 | a failed fetch or a reply without a configuration changes nothing; a load keeps the saved list and returns the fetched strategy |
| BuilderStore.SaveThenLoad | frontend/src/components/builder/builderStore.ts:95-182 | loading what was saved restores the builder's rules |
| BuilderStore.LoadFillsDefaults | frontend/src/components/builder/builderStore.ts:163-182 | each missing or falsy part of a loaded configuration takes its initial value, and each truthy part is taken as it is |
| BuilderStore.LoadWithoutConfiguration | frontend/src/components/builder/builderStore.ts:163-182 | a reply without a configuration leaves the builder unchanged |
| BuilderStore.DeleteStrategy | frontend/src/components/builder/builderStore.ts:184-189 | an id of 0 is ignored; a failed delete changes nothing; a successful delete resets the builder |
| BuilderStore.InitialConfigurationIsValid | frontend/src/components/builder/builderStore.ts:30-57 | the initial configuration passes the backend's validation |
| BuilderStore.AddKeepsValid | frontend/src/components/builder/builderStore.ts:68-79 | adding a condition to a valid configuration keeps it valid |
| BuilderTypes.ParamsNamed | frontend/src/components/builder/types.ts:116-127 | the parameter table has an entry exactly for the known indicator names |
| BuilderTypes.ParamsShape | frontend/src/components/builder/types.ts:116-127 | only volume and price have no parameters, and every default is positive |
| BuilderTypes.ParamDefaults | frontend/src/components/builder/types.ts:116-127 | the defaults are MACD 12/26/9, Bollinger 20/2/2, Stochastic 14/3, and 14 or 20 for the single periods |
| BuilderTypes.PresetsWellTyped | frontend/src/components/builder/types.ts:130-151 | every preset names a kind of its own vocabulary, and take-profit indicators are known indicators |
| ConditionRow.CrossOperatorAgrees | frontend/src/components/builder/ConditionRow.tsx:17-19 | the row's crossing operators are exactly the backend's |
| ConditionRow.ParamInput | frontend/src/components/builder/ConditionRow.tsx:40-44 | an empty box clears the parameter; non-empty text stores its `parseInt` value, or the default for NaN and 0 |
| ConditionRow.ParamInputRoundTrip | frontend/src/components/builder/ConditionRow.tsx:40-44 | a non-zero number typed in is stored as itself; 0 becomes the default |
| ConditionRow.Shown | frontend/src/components/builder/ConditionRow.tsx:39 | a box shows the stored value, or the default when it is absent or null |
| ConditionRow.EditParamShown | frontend/src/components/builder/ConditionRow.tsx:39-44 | after typing, every row with that id shows what was typed or the default; with a positive default no row stores 0 |
| ConditionRow.CompareKey | frontend/src/components/builder/ConditionRow.tsx:91-95 | the comparison key is "compare" followed by the key with only its first character upper-cased |
| ConditionRow.CompareKeyInjective | frontend/src/components/builder/ConditionRow.tsx:91-95 | two lower-case parameter names never share a comparison key |
| ConditionRow.CompareKeyOfFastPeriod | frontend/src/components/builder/ConditionRow.tsx:91-95 | MACD's comparison fast period lands under `compareFast_period`, not the declared `compareFastPeriod` |
| ConditionRow.ShowParamsExactly | frontend/src/components/builder/ConditionRow.tsx:14-15 | parameter inputs show for exactly the known indicators other than volume and price |
| ConditionRow.CompareParamsShown | frontend/src/components/builder/ConditionRow.tsx:56-107 | comparison inputs show exactly on a row with a crossing operator whose chosen comparison indicator has parameters |
| ConditionRow.ValueFields | frontend/src/components/builder/ConditionRow.tsx:109-165 | a crossing operator edits `compareValue`; a range operator edits `value` then `compareValue`; any other edits `value` |
| ConditionRow.RangeBoxesAreBounds | frontend/src/components/builder/ConditionRow.tsx:124-150 | for the backend's range operators the first box is the lower bound and the second the upper |
| EntrySelector.ApplyPreset | frontend/src/components/builder/EntryConditionSelector.tsx:18-27 | a preset sets its kind and value, keeps a truthy cap, risk and period or fills 10/1/20, and closes the custom panel |
| EntrySelector.ChangeField | frontend/src/components/builder/EntryConditionSelector.tsx:29-34 | a custom edit replaces exactly that field |
| EntrySelector.ApplyPresetIdempotent | frontend/src/components/builder/EntryConditionSelector.tsx:18-27 | applying a preset twice is applying it once, and afterwards exactly the presets of its kind show as selected |
| EntrySelector.PresetEntriesAreValid | frontend/src/components/builder/EntryConditionSelector.tsx:18-27 | every sizing preset gives an entry rule the backend accepts |
| EntrySelector.Description | frontend/src/components/builder/EntryConditionSelector.tsx:157-174 | the description is never empty, and an unknown sizing kind gets the generic text |
| EntrySelector.DescriptionShowsItsFields | frontend/src/components/builder/EntryConditionSelector.tsx:157-172 | the description shows the amount for a percentage or dollar rule, the risk and the cap for risk-based sizing, the cap for Kelly, the period and the cap for volatility sizing, and no field for an unknown kind |
| ExitSelector.StopFromPreset | frontend/src/components/builder/ExitConditionSelector.tsx:42-52 | a stop preset sets its type and value, a 5% activation exactly for trailing kinds, and ATR period 14 exactly for the ATR stop |
| ExitSelector.TakeFromPreset | frontend/src/components/builder/ExitConditionSelector.tsx:54-65 | a target preset sets its type and value, the ratio exactly for risk-reward, and the threshold text exactly for an indicator preset |
| ExitSelector.ApplyStopPreset | frontend/src/components/builder/ExitConditionSelector.tsx:42-52 | the stop loss is replaced and nothing else changes |
| ExitSelector.ApplyTakePreset | frontend/src/components/builder/ExitConditionSelector.tsx:54-65 | the take profit is replaced and nothing else changes |
| ExitSelector.ChangePart | frontend/src/components/builder/ExitConditionSelector.tsx:67-87 | one field of one part changes; the other fields and parts stay |
| ExitSelector.ChangesAreIndependent | frontend/src/components/builder/ExitConditionSelector.tsx:67-87 | editing the stop leaves the target alone, and the other way round |
| ExitSelector.EnsureDefaults | frontend/src/components/builder/ExitConditionSelector.tsx:20-40 | after the default fill both parts exist; present parts and other fields are kept |
| ExitSelector.EnsureDefaultsDiscrepancy | frontend/src/components/builder/ExitConditionSelector.tsx:20-40 | the source and the corrected fill agree when one part exists and differ when both are missing |
| ExitSelector.EmptyExitExample | frontend/src/components/builder/ExitConditionSelector.tsx:20-40 | an empty exit ends with a target but no stop loss in the source |
| ExitSelector.Description | frontend/src/components/builder/ExitConditionSelector.tsx:299-343 | the exit description is never empty |
| ExitSelector.DescriptionShape | frontend/src/components/builder/ExitConditionSelector.tsx:299-343 | a non-empty stop text is followed by " + " and the target text whenever a truthy `takeProfit` exists, even one that describes nothing; a stop text alone stands alone; with neither text the placeholder shows |
| ExitSelector.TrailingDollarUndescribed | frontend/src/components/builder/ExitConditionSelector.tsx:299-343 | a trailing-dollar stop alone reads as no exit rules |
| BacktestPage.ValidateRun | frontend/src/components/backtester/BacktestPage.tsx:65-107 | the checks run in page order and the first failure is reported; a request is sent exactly when all pass, with the ticker trimmed and upper-cased |
| BacktestPage.HandleReply | frontend/src/components/backtester/BacktestPage.tsx:109-118 | a reply with a truthy `error` is shown as an error, any other reply as results; a failed request shows its error or the generic one |
| BacktestPage.AmountMatch | frontend/src/components/backtester/BacktestPage.tsx:163 | what `[\d,]+\.?\d*` captures is a non-empty prefix of the text |
| BacktestPage.AmountMatchCaptures | frontend/src/components/backtester/BacktestPage.tsx:163 | `[\d,]+\.?\d*` matches exactly when the text starts with a digit or comma; the capture is digits and commas, then at most one point followed only by digits, and it stops only before a non-digit (before a non-amount character other than '.' when it holds no point) |
| BacktestPage.PnlMatch | frontend/src/components/backtester/BacktestPage.tsx:163-166 | a match needs a sign and a '$' in front, and its first part is that sign |
| BacktestPage.PnlMatchCaptures | frontend/src/components/backtester/BacktestPage.tsx:163-166 | the P&L pattern matches exactly a sign, a '$' and an amount character, and captures the sign and the amount match after the '$' |
| BacktestPage.WinOfMatch | frontend/src/components/backtester/BacktestPage.tsx:161-172 | once the pattern has matched, a P&L other than the dash is a win exactly when the sign is '+' and the amount, commas removed, parses to more than zero |
| BacktestPage.WinCount | frontend/src/components/backtester/BacktestPage.tsx:149-178 | wins never exceed completed trades, and equal them when every completed trade won |
| BacktestPage.CountsAppend | frontend/src/components/backtester/BacktestPage.tsx:155-175 | both counts add up over a split trade log, so each row contributes on its own |
| BacktestPage.CountsOfRow | frontend/src/components/backtester/BacktestPage.tsx:157-171 | a single row counts as completed iff its Type mentions EXIT or MARGIN CALL, and as a win iff it is also a winning P&L |
| BacktestPage.WinRate | frontend/src/components/backtester/BacktestPage.tsx:149-178 | the win rate is `Math.round(wins / completed * 100)` over the completed trades, so it lies in [0, 100], is 0 without completed trades or wins and 100 when all won |
| BacktestPage.TypeLabelCompleted | backend/api/backtester.py:595-734 | the backend's trade types count as completed exactly for closes and margin calls |
| BacktestPage.BackendExitReasons | frontend/src/components/backtester/BacktestPage.tsx:392-404 | backend rows read as signal entries and exits, while a margin call gets an empty label |
| BacktestPage.CompletedAreClosedPositions | frontend/src/components/backtester/BacktestPage.tsx:149-178 | for the simulator's trade log the page counts half the log, rounded down, as completed trades |
| BacktestPage.WholeDollarMatch | frontend/src/components/backtester/BacktestPage.tsx:161-172 | the P&L pattern captures exactly the digits of a whole-dollar amount |
| BacktestPage.WholeDollarWin | frontend/src/components/backtester/BacktestPage.tsx:161-172 | a whole-dollar P&L is a win exactly when it is positive with a plus sign |
| BacktestPage.MoneyMatch | backend/api/backtester.py:670-673 | on the P&L text the backend writes (sign, '$', the dollars with thousands commas, a point and two cent digits, then nothing or " (...%)") the pattern captures the sign and the whole amount |
| Numbers.MoneyAmount | frontend/src/components/backtester/BacktestPage.tsx:166 | the backend's amount, commas removed, parses to the dollars plus the cents over a hundred, so `parseFloat` inverts the `,.2f` rendering |
| BacktestPage.MoneyWin | frontend/src/components/backtester/BacktestPage.tsx:161-172 | the backend's P&L text is a win exactly when its sign is '+' and at least one cent was gained: "+$0.00", every "-$..." and "N/A" are not wins |
| Numbers.Money | backend/api/backtester.py:671 | the `,.2f` rendering of dollars and cents ends in a point and two digits |
| Numbers.Grouped | backend/api/backtester.py:671 | the `,` rendering of a number starts with a digit and holds only digits and commas |
| Numbers.GroupedDigits | backend/api/backtester.py:671 | removing the commas from a thousands-grouped number leaves a digit string denoting that number |
| Numbers.ParseFloatDecimal | frontend/src/components/backtester/BacktestPage.tsx:166 | `parseFloat` reads digits, a point and digits as the decimal they denote |
| TickerData.InCategory | frontend/src/components/backtester/tickerData.ts:38-40 | a category lists exactly the table's options of that category, in table order |
| TickerData.Search | frontend/src/components/backtester/tickerData.ts:42-49 | the search lists exactly the options whose symbol, name or description contains the query, ignoring case, in table order |
| TickerData.EmptyQueryListsAll | frontend/src/components/backtester/tickerData.ts:42-49 | the empty query lists the whole table |
| TickerData.SearchIgnoresCase | frontend/src/components/backtester/tickerData.ts:42-49 | upper-casing the query does not change the results |
| TickerData.SymbolsUnique | frontend/src/components/backtester/tickerData.ts:11-30 | no two options share a symbol |
| TickerData.CategoriesSplitTable | frontend/src/components/backtester/tickerData.ts:11-40 | the table splits into five stocks, five currency pairs and three cryptocurrencies |
| TickerSelector.CategorizeIsFilter | frontend/src/components/backtester/TickerSelector.tsx:58-76 | each group holds exactly the tickers of its category, in input order |
| TickerSelector.CategorizePartitions | frontend/src/components/backtester/TickerSelector.tsx:58-76 | the groups together hold every ticker exactly as often as the input |
| TickerSelector.LabelMatchesBucket | frontend/src/components/backtester/TickerSelector.tsx:134-142 | the label next to a ticker names the group it is in |
| TickerSelector.BitcoinIsCrypto | frontend/src/components/backtester/TickerSelector.tsx:66-68 | BTCUSD mentions USD yet is grouped as crypto |
| TickerSelector.Allowed | frontend/src/components/backtester/TickerSelector.tsx:79-88 | the tickers shown are the server's, narrowed to the user's allowed list when there is one |
| TickerSelector.FilteredTickers | frontend/src/components/backtester/TickerSelector.tsx:91-103 | the search shows exactly the allowed tickers containing the query, ignoring case, in order |
| TickerSelector.RestrictedToUser | frontend/src/components/backtester/TickerSelector.tsx:79-103 | no search result or group shows a ticker outside the user's list |
| TickerSelector.SelectTicker | frontend/src/components/backtester/TickerSelector.tsx:119-123 | selecting reports the ticker, closes the dropdown and clears the search |
| TickerSelector.InputChange | frontend/src/components/backtester/TickerSelector.tsx:125-128 | typing opens the dropdown on the typed text |
| TickerSelector.SelectionClearsFilter | frontend/src/components/backtester/TickerSelector.tsx:91-123 | after a selection every allowed ticker shows again |
| SettingsModal.ProfileStep | frontend/src/components/dashboard/SettingsModal.tsx:105-141 | "No changes to save" exactly when name and email match; otherwise exactly the changed fields are sent |
| SettingsModal.ChangesReachForm | frontend/src/components/dashboard/SettingsModal.tsx:110-117 | applied to the user, the changes sent yield the form's name and email and nothing else |
| SettingsModal.PasswordStep | frontend/src/components/dashboard/SettingsModal.tsx:143-178 | a password is sent exactly when the confirmation matches and it has at least 8 characters |
| SettingsModal.PasswordChecksInOrder | frontend/src/components/dashboard/SettingsModal.tsx:144-152 | a mismatch is reported before the length |
| SettingsModal.TierStep | frontend/src/components/dashboard/SettingsModal.tsx:180-184 | choosing the tier already held is refused; any other choice is sent |
| SettingsModal.SettleUpdate | frontend/src/components/dashboard/SettingsModal.tsx:128-170 | success empties the password fields; failure keeps the form and reports the error or the fallback |
| SettingsModal.SuccessClearsPasswords | frontend/src/components/dashboard/SettingsModal.tsx:128-170 | successful profile and password updates both clear the password fields and keep name and email |
| SettingsModal.Lookup | frontend/src/components/dashboard/SettingsModal.tsx:44-66 | the tier table has an entry exactly for free, pro and premium |
| SettingsModal.TiersIncrease | frontend/src/components/dashboard/SettingsModal.tsx:44-66 | each tier allows strictly more strategies and daily backtests than the one before: 1/3, 5/50, 10/100 |
| SettingsModal.CurrentPlan | frontend/src/components/dashboard/SettingsModal.tsx:343 | without a signed-in user or a tier, the plan shown is free |
| SettingsModal.TierButton | frontend/src/components/dashboard/SettingsModal.tsx:405-413 | no button on the current tier; "Downgrade" exactly on the free card |
| SettingsModal.ButtonMeansSend | frontend/src/components/dashboard/SettingsModal.tsx:180-413 | a card shows a button exactly when pressing it passes the tier guard |
| SettingsModal.SettleTier | frontend/src/components/dashboard/SettingsModal.tsx:201-204 | success names the new plan, downgrades included; failure reports the error or the fallback |
| SettingsModal.PremiumSeesUpgradeToPro | frontend/src/components/dashboard/SettingsModal.tsx:405-413 | a premium user sees "Upgrade" on the pro card although pro allows less |
| EmailVerification.FormatTime | frontend/src/components/homepage/EmailVerification.tsx:76-80 | the time text has one colon and exactly two digits of seconds |
| EmailVerification.FormatTimeRoundTrip | frontend/src/components/homepage/EmailVerification.tsx:76-80 | the `m:ss` text reads back as the number of seconds, with seconds below 60 |
| EmailVerification.Arrive | frontend/src/components/homepage/EmailVerification.tsx:14-22 | a non-empty token is sent for verification; without one the page fails with its message and sends nothing |
| EmailVerification.SettleVerify | frontend/src/components/homepage/EmailVerification.tsx:35-53 | verification succeeds exactly on a successful reply; a refusal shows its error or the generic one |
| EmailVerification.Tick | frontend/src/components/homepage/EmailVerification.tsx:24-33 | above zero the countdown drops by one; at zero resending is enabled |
| EmailVerification.CountdownRuns | frontend/src/components/homepage/EmailVerification.tsx:24-33 | n seconds lower the countdown by n until zero, and resending is enabled on the effect run at zero |
| EmailVerification.Resend | frontend/src/components/homepage/EmailVerification.tsx:55-74 | a resend is sent exactly with a non-empty email; otherwise the page reports the missing address |
| EmailVerification.SettleResend | frontend/src/components/homepage/EmailVerification.tsx:55-74 | a successful resend disables the button for 300 seconds; a failure only reports the error |
| EmailVerification.ResendWaitsFiveMinutes | frontend/src/components/homepage/EmailVerification.tsx:55-74 | after a resend the button stays disabled for 300 ticks and is enabled on the next |
| EmailVerification.ResendCaption | frontend/src/components/homepage/EmailVerification.tsx:135-144 | the caption offers the resend when it is enabled, and otherwise shows the remaining time |
| Text.TrimEmptyIffBlank | frontend/src/components/backtester/BacktestPage.tsx:71 | trimming gives the empty string exactly for blank text |
| Text.TrimIdempotent | backend/api/views.py:123 | trimming twice is trimming once |
| Text.JoinSplit | backend/backend/settings.py:87-99 | joining the pieces of a split with the separator restores the text |
| Text.SplitJoin | backend/backend/settings.py:87-99 | splitting a join of separator-free pieces gives back the pieces |
| Numbers.NatToString | frontend/src/components/homepage/EmailVerification.tsx:76-80 | the rendering is a non-empty digit string denoting the number, without leading zeros |
| Numbers.JsParseIntRoundTrip | frontend/src/components/builder/ConditionRow.tsx:41-42 | `parseInt` reads back exactly the integer `String` renders |
| Numbers.TruncToInt | backend/api/views.py:110 | `int()` on a float truncates toward zero |
| Numbers.JsRound | frontend/src/components/backtester/BacktestPage.tsx:177 | `Math.round` gives the nearest integer, rounding halves up |
| Json.FromNumber | frontend/src/components/backtester/BacktestPage.tsx:99-107 | a number sent by the page arrives as a Python number of the same value |

## Left out

- The network, the database, the filesystem, the clock, timers and navigation. Each such effect is a parameter or an outcome value in the model. This covers:
  - the Polygon fetch;
  - the strategy lookup;
  - the record save;
  - the browser's HTTP calls;
  - `nanoid`;
  - the redirect after verification;
  - the token-refresh queue of the API client.
- `add_indicators_to_data` is not modelled. The enriched table is an input: a set of named columns of optional reals.
- Floating point. Prices and amounts are exact reals.
  - A NaN cell is a missing value. For the ATR cell read by volatility sizing this changes the trade; see the `Simulator.AtrFor` line below.
  - A NaN closing price is modelled (`None`) and takes the invalid-bar branch.
  - NaN or Infinity from `parseFloat` and a NaN leverage are not modelled.
- The rendering of numbers as text is not modelled. This covers final equity, return, P&L and the coverage percentage, which are parameters of `BacktestRecord.CompletedResults`.
- The wording of the date-range messages.
- Calendar dates are day numbers. The request body carries no `start_date` or `end_date`.
- Which duplicate row pandas keeps when sorting is unstable.
- The loader's missing-column error cannot be reached, because the loader names the columns itself.
- JavaScript `.length` counts UTF-16 code units, while strings here are sequences of characters.
- A truthy `conditions` value that is not a list loads as no conditions.
- Rendering and styling, the help page, the dashboard cards, the serializers, e-mail sending and the test scripts other than the position-sizing cases.
- DbSettings.RewrittenParams: stated only for URLs with at most one question mark.
- DbSettings.RewriteIdempotent: stated only for URLs with at most one question mark. With a second question mark, the text after it is dropped on the first pass.
- SettingsModal.CurrentPlan: states only the free default. An unknown tier, where the page would fail, is the None result.
- Signals.Evaluate: states the length and the column read. The values per operator are stated by `CrossSwap`, `CrossExclusive`, `BetweenOutsideComplement` and `NotEqualsComplement`.
- ExitChecks.StopLossHit: the ATR and support/resistance stops are modelled but not characterised by a lemma.
- ExitChecks.TakeProfitHit: the indicator-based target is modelled but not characterised by a lemma.
- StrategyConfig.Decode: an optional field that the configured kind reads but that cannot be computed with fails the whole run up front. The engine raises only when it reaches that branch: at the first entry for the sizing fields, and at the first bar a position is held for the exit fields. A run that never gets there completes in the engine but fails in the model.
- StrategyConfig.DecodeEntry: fails up front on a non-numeric `maxPositionSize`, or on a non-numeric `riskPerTrade` under risk-based sizing, even when no entry is ever taken.
- StrategyConfig.DecodeStopLoss: fails up front on a non-numeric `supportResistanceLevel` of a support/resistance stop, even when no position is ever held.
- StrategyConfig.DecodeTakeProfit: fails up front on a non-numeric `riskRewardRatio` (over a fixed-percentage stop) or a list or dict `indicator`, even when no position is ever held.
- Simulator.Step: the run (`Step`, `Act`, `Exit`, `RunBars`, `StepKeepsInv`, `Simulate`, and through them `Backtest.RunBacktest` and `BacktestView.Post`) applies the three simulator corrections listed under Findings: the closing cash, the invalid-bar equity and the tracked trailing extreme. Non-negative equity and a return of at least -100% are promised of the corrected run only; the code as written is modelled by the as-written members of the Findings table.
- Simulator.AtrFor: a NaN cell in an existing `atr_<period>` column is read as missing, so the model sizes the entry with the default ATR of 2% of the price. The engine passes the NaN on (backend/api/backtester.py:583-584): the volatility factor, the position, the cash and every later equity value become NaN. The model takes an ordinary trade there.
- PositionSizing.PositionSize: a zero ATR is taken as an infinite request, so the cap is committed. That matches the engine only for a positive `sizingValue`. With `sizingValue` 0 the engine's product is NaN (0 × inf), with a negative one it is -inf, and `min` returns either (backend/api/backtester.py:138-146). Floating-point NaN and infinities are not modelled.
- Text.Trim: strips ASCII whitespace only; Python's `strip()` and JavaScript's `trim()` also strip Unicode spaces such as U+00A0, so a ticker of only such spaces is accepted here and refused by the server.
- Text.Lower: lower-cases ASCII letters only; non-ASCII letters stay as they are, which narrows the case-insensitive ticker search and the duplicate-name test of the store.
- Text.Upper: upper-cases ASCII letters only, so an indicator name with a non-ASCII letter is looked up unchanged, and `TickerData.SearchIgnoresCase` is stated for ASCII case only (JavaScript upper-cases "ß" to "SS").
- Backtest.RunBacktest: inherits the up-front failure of `StrategyConfig.Decode`, so a run that never reaches the branch reading a malformed optional field is reported as failed.
- BacktestPage.MoneyWin: the backend's amount is given as whole dollars and cents; how Python rounds the float P&L to two decimals is floating point and is not modelled, so a gain below half a cent ("+$0.00") is covered only through its rendered cents.
- Numbers.PyFloat: reads plain decimal text only; Python's `float()` also accepts "nan", "inf", "infinity" and underscores between digits ("1_000"), which the model reads as not a number, so such a condition threshold skips the condition here.

## Findings

| source | as written | input that shows it | evidently intended | confidence | as-written member | corrected member |
|---|---|---|---|---|---|---|
| backend/api/backtester.py:679-685 | the closing cash is the entry portfolio plus the trade value minus the entry portfolio times the leverage, which treats the whole portfolio as committed | a long strategy sizing 2% of 10000 without leverage, entered at 100 and closed at 95: the account is worth 9990, the closing cash as written is 190 | the cash after a close is the position's value at the exit price | not executed | Simulator.ExitCashAsWritten | Simulator.ExitCash |
| backend/api/backtester.py:568-570 | a bar with an invalid price records cash plus the short position's raw value | a short opened at 100 on 10000 followed by a bar with no price | the equity carries over the last recorded value | not executed | Simulator.InvalidBarEquityAsWritten | Simulator.InvalidBarEquity |
| backend/api/backtester.py:545-557 | the trailing stop is measured from the entry price, so it never trails | a long with a 5% trailing stop, entered at 100, trading at 150 and then at 140 | the stop is measured from the best price since entry | not executed | Simulator.ExitFiresAsWritten | Simulator.ExitFires |
| frontend/src/components/builder/ExitConditionSelector.tsx:20-40 | each missing part is reported from the same stale object, so the second report overwrites the first | an exit condition `{}` | both default parts are filled | not executed | ExitSelector.EnsureDefaultsAsWritten | ExitSelector.EnsureDefaults |
| backend/api/csv_data_loader.py:75 | `drop_duplicates` compares the price columns only, not the date | two days with identical prices | only repeated rows of the same day are dropped | not executed | CsvLoader.LoadAsWritten | CsvLoader.LoadCsv |
| backend/api/views.py:241 | "API key" is searched for in lower-cased text, so it never matches | an error message "Invalid API key" | the API-key error is recognised in any case | not executed | FetchErrors.FetchErrorAsWritten | FetchErrors.FetchError |
