# nifty-algo-dashboard — a verified model of the decision logic

This project models the decision logic of the NIFTY algorithmic-trading dashboard. It covers:

- the MACD/EMA-200 long-or-flat backtest and its four summary statistics (`trading_logic.py`);
- the length gate of the indicator step and the clamp of the bullish-confidence heuristic;
- the buy/sell crossover markers drawn on the chart (`app.py`);
- the risk-sizing calculator and the parsing of the asset picker's labels;
- the indicator recurrences of the `TechnicalIndicators` class in `app.py`: EMA with `adjust=False`, rolling means, RSI and Bollinger bands;
- the database URL rewrite, the engine options, and the records and dictionary views of `database.py`.

Pandas NaN is `None` in `Option<real>` (module `Wrappers`). The model follows the pandas rules the code relies on:

- a comparison involving NaN is false;
- `x != 0` on NaN is true;
- `shift(1)` and `diff()` are NaN at row 0;
- `where(cond, 0)` replaces NaN with 0;
- `sum()` and `min()` skip NaN.

A DataFrame is a `Frames.Frame` object: a row count and a map from column names to columns. The methods that write columns into the caller's frame update that map in place. Arithmetic is on unbounded reals.

Modules:

- `Wrappers`, `Strings` and `Frames` hold the Python and pandas primitives.
- `Backtest` holds the pure accounting.
- `TradingLogic` holds the in-place methods of `trading_logic.py`.
- `AppIndicators` holds the app's indicator class.
- `Crossover`, `RiskCalculator`, `Tickers` and `Database` each hold one component.

Behaviours of the code a reader may not expect, all modelled as the code has them:

- The trade count includes row 0. A position series that never changes reports 1 trade, not 0.
- The row-0 NaN return enters the win-rate denominator. The unrounded rate of a non-empty backtest is therefore always below 100. The reported value is rounded to two decimals, so with 20000 or more active rows it can still show 100.0.
- Two buy markers can occur with no sell between them. A tie counts as "at or below" for the previous bar but not as "above" for the current one (`Crossover.TieAllowsRepeatedBuy`).
- The app's RSI is 100 when the average loss is 0 and the average gain is positive, since gain/0 is +inf; it is NaN when both are 0 (`AppIndicators.RsiCases`, `AppIndicators.RsiValue`).
- The app's RSI averages gains and losses with a simple 14-row rolling mean (`AppIndicators.AverageGain`, `AppIndicators.AverageLoss`), not with Wilder's exponential smoothing used by the textbook RSI.
- A zero-variance feature does not force a fixed 50. StandardScaler scales such a column by 1, so all its scaled values are 0. Only the scaled Close enters the momentum (trading_logic.py:100), so a constant Open, High or Low changes nothing. A constant Close gives a momentum of exactly 0 and a confidence of exactly 50. `TradingLogic.ConfidenceFollowsCloseDirection` proves the last step: equal first and last scaled closes give exactly 50. The model does not prove that a constant Close scales to equal values, because the scaler (`fitTransform`) is an unconstrained parameter.

Other notes on the code:

- The `TechnicalIndicators` class at app.py:232-269 is never used on the pages. The names are resolved before line 232 rebinds them, so the version imported from `trading_logic.py` is the one that runs. It is modelled because it is the only indicator code whose arithmetic is visible.
- The page at app.py:215-216 selects the key `'type'` from the signal dictionaries. `to_dict` produces `'signal_type'` (database.py:42). `Database.LoggedSignalView` proves that the key `"type"` is never present.

## Model

| member | source | states |
|---|---|---|
| Strings.Split | app.py:159 | `str.split(sep)`: the parts re-joined with `sep` give the input back; no part contains `sep`; there are two or more parts exactly when the input contains `sep` |
| Strings.ReplaceFirst | database.py:22 | `replace(old, new, 1)`: unchanged when `old` does not occur; otherwise the first occurrence, and only it, is replaced: the text before and after it is kept |
| Strings.RemoveChar | app.py:159 | `replace(")", "")`: the character no longer occurs, every other character keeps its count, and a string without it is returned unchanged |
| Strings.Upper | database.py:108 | `upper()` on ASCII: same length, no lower-case letter left, and each character is kept or is its lower-case letter shifted to upper case |
| Strings.UpperIdempotent | database.py:108 | upper-casing an upper-cased string changes nothing |
| Frames.Shift | trading_logic.py:59 | `shift(1)`: row 0 is NaN and every later row holds the previous row's value |
| Frames.Diff | trading_logic.py:61 | `diff()`: NaN at row 0; later rows are defined, and zero exactly when the value did not change |
| Frames.Frame.SetColumn | trading_logic.py:57-59 | assigning a column replaces or adds that one column and keeps the row count and every other column |
| Backtest.Positions | trading_logic.py:57 | the position is 0 or 1, and it is 1 exactly when MACD, signal and EMA_200 are defined, MACD > signal and Close > EMA_200 |
| Backtest.PctChange | trading_logic.py:58 | `pct_change()` has one value per close and is NaN at row 0 |
| Backtest.PctChangeRecoversPrice | trading_logic.py:58 | from row 1 the percent change is defined, and the previous close grown by it is the current close |
| Backtest.StrategyReturns | trading_logic.py:59 | `Signal.shift(1) * Returns` has one value per row and is NaN at row 0; its value at each later row is stated by `StrategyReturnAt` |
| Backtest.StrategyColumn | trading_logic.py:57-59 | the strategy returns of a frame have one value per close; each row is stated by `StrategyReturnAt` |
| Backtest.StrategyReturnAt | trading_logic.py:57-59 | the strategy return is NaN at row 0, and is position[i-1] × (close[i]/close[i-1] − 1) at every later row |
| Backtest.CountNonZero | trading_logic.py:61-62 | the number of rows kept by a `!= 0` filter is at most the column length |
| Backtest.TotalTrades | trading_logic.py:61 | `len(df[df['Signal'].diff() != 0])` is at most the number of rows and at least 1 for a non-empty frame; its exact value is `TradeCountRule` |
| Backtest.CountPositive | trading_logic.py:64 | the number of positive returns is at most the number of rows the `!= 0` filter keeps |
| Backtest.ChangesAfterRowZero | trading_logic.py:61 | after row 0, the rows `diff() != 0` keeps are exactly the bars where the position changed |
| Backtest.TradeCountRule | trading_logic.py:61-68 | the trade count is 0 for an empty frame and otherwise 1 + the number of position changes: row 0 always counts |
| Backtest.ConstantPositionsOneTrade | trading_logic.py:61-68 | a position that never changes still reports one trade |
| Backtest.WinRate | trading_logic.py:62-64 | the win rate lies in [0, 100]; it is 0 with no active rows or no winners, and below 100 when some active row is not a winner |
| Backtest.RowZeroNeverWins | trading_logic.py:59-64 | a NaN at row 0 is counted as active but never as a winner |
| Backtest.MinDefined | trading_logic.py:70 | `min()` skipping NaN: NaN exactly when every row is NaN; otherwise a value of the column that bounds every defined row from below |
| Backtest.Log1pFormIsProduct | trading_logic.py:65 | for returns of at least −1, exp(sum of log1p) equals the product of (1 + r) over the defined rows |
| Backtest.GrowthViaLog1p | trading_logic.py:65 | `exp(log1p(r).sum())` over exact reals is never negative; with every return at least −1 it is the compounded product (`Log1pFormIsProduct`) |
| Backtest.ZeroReturnsCount | trading_logic.py:62-65 | all-zero returns give no active rows, no winners and a growth factor of 1 |
| Backtest.RunSummary | trading_logic.py:57-72 | the summary's trade count follows the trade rule; the win rate is in [0, 100] and below 100 for a non-empty frame; the drawdown is NaN exactly when there are fewer than two bars |
| Backtest.RunReturnAtLeastTotalLoss | trading_logic.py:65 | the reported total return is never below −100%, since every compounding factor is non-negative |
| Backtest.Run | trading_logic.py:57-72 | the backtest summary of a frame with `EMA_200`; the trade count is at most the number of rows, and its four figures are pinned by `RunSummary`, `PositivePricesCompound` and the flat-result lemmas |
| Backtest.FlatStrategyResult | trading_logic.py:57-71 | when every strategy return after row 0 is zero, the win rate and total return are 0, the trade count is one plus the number of position changes, and the drawdown is 0 with two or more bars (NaN with one) |
| Backtest.NeverEnteredResult | trading_logic.py:57-71 | a position that is never 1 gives 1 trade, a 0 win rate, a 0 total return and (with two or more bars) a 0 drawdown |
| Backtest.ConstantPriceResult | trading_logic.py:57-71 | a constant close gives a 0 win rate, a 0 total return and at least one trade |
| Backtest.DrawdownNonPositiveWhenFlat | trading_logic.py:59-70 | if the position was 0 on some bar before the last, the drawdown is defined and at most 0 |
| Backtest.PositivePricesCompound | trading_logic.py:65-71 | with positive prices the total return is (product of (1 + strategy return) − 1) × 100 |
| TradingLogic.WithIndicators | trading_logic.py:43-48 | the five indicator columns are added or replaced with the given values; every other column is kept |
| TradingLogic.AddAllIndicators | trading_logic.py:41-49 | returns its argument; a None frame or one with fewer than 200 rows is left unchanged; otherwise exactly the five indicator columns are written |
| TradingLogic.RunMacdCrossover | trading_logic.py:53-72 | returns the all-zero result for None or a frame without EMA_200 and leaves that frame alone; otherwise writes Signal, Returns and Strategy_Returns and returns the backtest summary of the frame's columns |
| TradingLogic.CompleteOffsets | trading_logic.py:97 | the offsets it lists are complete rows among the first n, strictly increasing |
| TradingLogic.CompleteOffsetsCover | trading_logic.py:97 | every complete row among the first n is listed, so the offsets are exactly the complete rows |
| TradingLogic.CompleteOffsetsEmpty | trading_logic.py:97-98 | the offsets, and so the `dropna()` result, are empty exactly when no row is complete |
| TradingLogic.CompleteOffsetsFull | trading_logic.py:97 | when every row is complete all n offsets are listed, so `dropna()` keeps every row |
| TradingLogic.DropNa | trading_logic.py:97 | `dropna()`: the k-th kept row is the row at the k-th complete offset, so exactly the complete rows are kept, in their original order |
| TradingLogic.DropNaMembership | trading_logic.py:97 | a value is kept exactly when some row holds it |
| TradingLogic.LastRows | trading_logic.py:97 | `tail(10)`: the last min(rows, 10) rows of the four feature columns, in order |
| TradingLogic.Features | trading_logic.py:97 | the features are the complete rows among the last ten, in their original order: at most ten, each from a row at or after rows − 10, every complete such row included |
| TradingLogic.CompleteWindowHasFeatures | trading_logic.py:96-98 | with at least ten rows and no NaN, all ten rows are features, so the empty-features branch is not taken |
| TradingLogic.ConfidenceFromMomentum | trading_logic.py:101-102 | the confidence is 50 + 10·momentum clamped to [0, 100] |
| TradingLogic.ConfidenceMonotone | trading_logic.py:101-102 | a larger momentum never gives a smaller confidence |
| TradingLogic.ConfidenceFollowsCloseDirection | trading_logic.py:100-102 | the confidence from a scaled window is exactly 50 when the scaled close ends where it started (or there is no row), above 50 exactly when it rose, and below 50 exactly when it fell |
| TradingLogic.PredictiveModel.constructor | trading_logic.py:91-92 | a new model starts with an unfitted scaler |
| TradingLogic.PredictiveModel.PredictConfidence | trading_logic.py:94-104 | the result is in [0, 100]; it is 50 for None, fewer than 10 rows, no complete feature row, or a raising scaler; otherwise the scaler is refitted on the features and the result is the clamped momentum score |
| AppIndicators.Alpha | app.py:244-247 | the smoothing factor 2/(span+1) lies in (0, 1] |
| AppIndicators.EmaAt | app.py:244-247 | the `adjust=False` recurrence at row i: with α = 1 it is the value itself, with α = 0 the first value; `EwmMean` computes it and `EmaWithinRange` bounds it |
| AppIndicators.EwmMean | app.py:244-247 | `ewm(span, adjust=False).mean()`: the loop computes e[0] = x[0] and e[i] = α·x[i] + (1 − α)·e[i−1] at every row |
| AppIndicators.EmaOfConstant | app.py:244-247 | the EMA of a constant series is that constant |
| AppIndicators.EmaWithinRange | app.py:244-247 | the EMA stays within the bounds of the values seen so far |
| AppIndicators.MacdLine | app.py:244-246 | MACD has one value per close |
| AppIndicators.SignalLine | app.py:247 | the signal line has one value per close |
| AppIndicators.ConstantCloseFlatMacd | app.py:244-247 | a constant close makes MACD and the signal line identically 0 |
| AppIndicators.SumNonNegative | app.py:236-237 | a window of non-negative gains or losses has a non-negative sum |
| AppIndicators.RollingMeanAt | app.py:252 | a rolling mean over w is NaN for the first w − 1 rows and defined afterwards |
| AppIndicators.RollingMeanNonNegative | app.py:236-237 | over non-negative input the rolling mean is non-negative |
| AppIndicators.RollingMeanOfConstant | app.py:252 | once defined, the rolling mean of a constant series is that constant |
| AppIndicators.RollingMean | app.py:252 | the running-sum loop yields the windowed mean at every row |
| AppIndicators.RollingMeanColumn | app.py:260 | the rolling-mean column has one value per input row |
| AppIndicators.Gains | app.py:236 | the zero-filled gains are non-negative |
| AppIndicators.Losses | app.py:237 | the zero-filled, negated losses are non-negative |
| AppIndicators.AverageGain | app.py:236 | the average gain is non-negative where defined |
| AppIndicators.AverageLoss | app.py:237 | the average loss is non-negative where defined |
| AppIndicators.Rsi | app.py:235-239 | RSI has one value per close |
| AppIndicators.RsiValue | app.py:238-239 | `100 − 100/(1 + gain/loss)` in floating point: defined exactly when both averages are and at least one is positive (0/0 is NaN, gain/0 is +inf and gives 100), and always within [0, 100] |
| AppIndicators.EmaPrefix | app.py:244-247 | no look-ahead: the EMA at row i is the same when the series is cut after any later row |
| AppIndicators.MacdPrefix | app.py:244-246 | the MACD line of the first k closes is the first k rows of the MACD line |
| AppIndicators.SignalPrefix | app.py:247 | the signal line of the first k closes is the first k rows of the signal line |
| AppIndicators.RollingMeanPrefix | app.py:252 | the rolling mean at row i is the same when the series is cut after any later row |
| AppIndicators.RsiPrefix | app.py:235-239 | the RSI of the first k closes is the first k rows of the RSI |
| AppIndicators.RsiCases | app.py:235-239 | RSI is NaN before row 13 and both averages are defined from row 13; RSI lies in [0, 100) when the loss average is positive; it is 100 when there is no loss but some gain, and NaN when both are 0 |
| AppIndicators.UpperBand | app.py:254 | the upper band has one value per row |
| AppIndicators.LowerBand | app.py:255 | the lower band has one value per row |
| AppIndicators.BandsSymmetric | app.py:252-255 | both bands are defined exactly where the mean and std are; the upper band lies as far above the mean as the lower band lies below it, and never below it |
| AppIndicators.AddRsi | app.py:234-240 | writes exactly `RSI_14`, computed from Close |
| AppIndicators.AddMacd | app.py:243-248 | writes exactly `MACD` and `Signal_Line` |
| AppIndicators.AddBollingerBands | app.py:251-256 | writes exactly `BB_Upper` and `BB_Lower` from the 20-row mean and the given std |
| AppIndicators.AddVolumeMa | app.py:259-261 | writes exactly `Vol_MA`, the 20-row mean of Volume |
| AppIndicators.AddAllIndicators | app.py:264-269 | applies the four steps in order and writes exactly their six columns |
| Crossover.BuyMask | app.py:140 | a buy marker appears exactly at a row i ≥ 1 with all four values defined, MACD > signal now and MACD ≤ signal on the previous bar |
| Crossover.SellMask | app.py:141 | a sell marker appears exactly at a row i ≥ 1 with all four values defined, MACD < signal now and MACD ≥ signal on the previous bar |
| Crossover.NeverBothMarkers | app.py:140-141 | no bar carries both markers |
| Crossover.NoConsecutiveBuys | app.py:140 | two buys never fall on adjacent bars |
| Crossover.BuysSeparatedByDip | app.py:140 | between two buys MACD is at or below the signal on some bar |
| Crossover.TieAllowsRepeatedBuy | app.py:140-141 | a MACD − signal path of −1, +1, 0, +1 gives two buys and no sell |
| Crossover.FallProducesSell | app.py:141 | with no ties, going from above the signal to below it produces a sell marker |
| Crossover.StrictCrossingsAlternate | app.py:140-141 | with no ties between them, two buys have a sell between them |
| RiskCalculator.Truncate | app.py:87 | `int()` truncates toward zero |
| RiskCalculator.Advise | app.py:84-93 | sizing happens exactly when entry > 0, stop > 0 and entry > stop; the error shows exactly when 0 < entry ≤ stop; nothing shows otherwise; a sizing risks capital·risk%/100 at entry − stop per share, and its trade value is quantity·entry |
| RiskCalculator.QuantityWithinRisk | app.py:84-87 | with non-negative capital and risk, the quantity is the largest whole number whose loss at the stop fits the amount at risk |
| RiskCalculator.QuantityForNegativeAmount | app.py:84-87 | with a negative amount at risk, the quantity is not positive and is rounded toward zero |
| Tickers.OptionRoundTrip | app.py:159-174 | for an option "NAME (SYM)" whose name has no "(" and whose symbol has no parenthesis, the ticker is SYM and the chart label is NAME |
| Tickers.SelectedTicker | app.py:159 | the piece between the first "(" and the next "(" (or the end) with every ")" removed, unchanged when it has none; `OptionRoundTrip` recovers the symbol |
| Tickers.ChartLabel | app.py:174 | the text before the first " (", holding no " (", and the whole choice when there is none; `OptionRoundTrip` recovers the name |
| Tickers.NiftyOptionParses | app.py:158-159 | "NIFTY 50 (^NSEI)" gives the ticker ^NSEI and the label NIFTY 50 |
| Tickers.RelianceOptionParses | app.py:158-159 | "RELIANCE (RELIANCE.NS)" gives the ticker RELIANCE.NS and the label RELIANCE |
| Tickers.TcsOptionParses | app.py:158-159 | "TCS (TCS.NS)" gives the ticker TCS.NS and the label TCS |
| Tickers.HdfcBankOptionParses | app.py:158-159 | "HDFC BANK (HDFCBANK.NS)" gives the ticker HDFCBANK.NS and the label HDFC BANK |
| Database.NormalizeUrl | database.py:21-22 | a URL that starts with "postgres://" gets that prefix replaced by "postgresql://" with the rest kept; any other URL is unchanged |
| Database.DatabaseUrl | database.py:20-22 | without an environment value the URL is "sqlite:///trading_dashboard.db"; otherwise it is the normalised value |
| Database.NormalizeIdempotent | database.py:21-22 | normalising twice is the same as normalising once |
| Database.EngineKwargs | database.py:79-84 | a URL containing "sqlite" gets exactly {connect_args: {check_same_thread: False}}; any other URL gets exactly {pool_size: 5, max_overflow: 10} |
| Database.NormalizeKeepsEngineOptions | database.py:79-84 | the scheme rewrite never changes which engine options a URL gets |
| Database.DefaultUsesSqliteOptions | database.py:80-81 | the default URL gets the SQLite options |
| Database.DatabaseManager.constructor | database.py:71-75 | stores the URL; when the engine can be created, both the engine and the session factory are built for that URL; otherwise both stay None |
| Database.DatabaseManager.InitializeDatabase | database.py:77-90 | builds the keyword arguments by successive updates; on success it sets the engine to the URL with those options and the session factory to one bound to that engine with autocommit, autoflush and expire_on_commit off; a raising `create_engine` leaves both fields as they were |
| Database.NewSignal | database.py:104-110 | the stored type is the upper-cased input, with characters other than ASCII lower-case letters kept; the indicator text is stored exactly when the dictionary is present and non-empty; id, timestamp and status are left to the database |
| Database.InsertSignal | database.py:28-35 | on insert the row gets its id, the current time if it has no timestamp, and "ACTIVE" if it has no status; nothing else changes |
| Database.SignalToDict | database.py:37-46 | exactly the keys id, timestamp, ticker, signal_type, price, timeframe and status, never indicator_values; the timestamp is None exactly when unset, and ISO text otherwise |
| Database.LoggedSignalView | database.py:37-46 | a logged and stored signal reads back with its id, its insertion time, the upper-cased type and status "ACTIVE", and has no "type" key |
| Database.InsertBacktestLog | database.py:50-51 | on insert the row gets its id and the current time if it has no timestamp; nothing else changes |
| Database.LoggedBacktestView | database.py:60-68 | a logged and stored backtest reads back with its id, its insertion time and the strategy, ticker, win rate and total return it was logged with, and shows no timeframe, trade count or drawdown |
| Database.BacktestLogToDict | database.py:60-68 | exactly the keys id, timestamp, strategy_name, ticker, win_rate and total_return; timeframe, total_trades and max_drawdown are omitted |

## Left out

- Backtest.RunSummary: does not model `round(…, 2)` on the three reported rates. The rounding is half-even on binary floats and has no counterpart over the reals.
- Backtest.WinRate: states the unrounded rate; `round(win_rate, 2)` is not modelled.
- TradingLogic.ConfidenceFromMomentum: states the unrounded clamp; `round(…, 2)` is not modelled.
- TradingLogic.PredictiveModel.PredictConfidence: returns the unrounded confidence. StandardScaler is a function parameter that returns the scaled rows, or nothing when it raises. Its arithmetic is not modelled.
- TradingLogic.RunMacdCrossover: requires a frame that has EMA_200 to also have Close, MACD and MACD_Signal, with Close free of NaN and of zeros. A missing column would raise KeyError. A zero price would produce infinities, and floats are not modelled.
- TradingLogic.AddAllIndicators: the RSI, MACD, signal, MACD diff and EMA-200 columns from the `ta` library are inputs. Their arithmetic belongs to that library. A frame of 200 or more rows is required to have a Close column, so the KeyError that trading_logic.py:43 raises on a frame without one is not modelled.
- AppIndicators.AddBollingerBands: the rolling standard deviation (square root, ddof=1) is an input column. Only its length is constrained.
- AppIndicators.AddRsi, AppIndicators.AddMacd, AppIndicators.AddBollingerBands, AppIndicators.AddVolumeMa, AppIndicators.AddAllIndicators: these require Close (and, for the volume average, Volume) without NaN. NaN propagation through `ewm` and `rolling` is not modelled.
- AppIndicators.RollingMean: the mean is exact. The float residue of pandas' running sum is not modelled.
- Backtest.Log1pFormIsProduct: `exp` and `log1p` are taken to be exact inverses. A return below −1 makes `log1p` NaN, which `sum()` skips; the model uses a factor of 1 for it.
- The `ta` indicator internals (trading_logic.py:43-48) and the scaler's fit (trading_logic.py:99) are foreign code.
- Database.SignalToDict, Database.BacktestLogToDict: `isoformat` is a function parameter.
- Database.NewSignal: `json.dumps` is a function parameter. Indicator values are modelled as a map from names to reals.
- Strings.Upper: ASCII only. Python's Unicode case mapping is not modelled.
- Database.DatabaseManager.InitializeDatabase: whether `create_engine` raises is a boolean parameter. The engine and session factory are records of their arguments. The connection pool, sessions, commit/rollback and the queries `get_recent_signals` and `get_backtest_history` (database.py:92-132) are database I/O.
- `log_signal` and `log_backtest_result` are modelled as the records they build (`NewSignal`, `NewBacktestLog`). Adding the record to a session is I/O, and so is swallowing SQLAlchemyError.
- Environment reads are modelled as an optional value (`Database.DatabaseUrl`).
- `DataFetcher` (trading_logic.py:15-37): network I/O through yfinance.
- `DiscordNotifier` (trading_logic.py:74-88): HTTP posts on a daemon thread.
- The Streamlit layout, theme, QR code, plot traces and metric widgets (app.py:14-75, 102-136, 143-230) are UI. The `'type'` lookup at app.py:215-216 raises KeyError in pandas, which is also UI. The risk calculator's two-decimal formatting (app.py:89-91) is display only.
- Float-specific behaviour is not modelled: infinities, NaN produced by arithmetic rather than by shifting or missing data, and rounding.
- Database.DatabaseManager.constructor: Python's default argument reads the module's `DATABASE_URL`. Here the caller passes the URL.
