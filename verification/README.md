# crypto-trader-bot, modelled in Dafny

This project models the data-handling core of crypto-trader-bot, a trading
assistant for BTC. The bot has these parts:

- It builds a training dataset of Binance candles for VITE/USDT and BTC/USDT, caching one file per day in S3.
- It derives trailing-window features from the dataset and cuts them into windows.
- It scales them with a min–max or a log-then-standardise processor.
- It trains an ensemble of regressors per stage ("staging", "production") and promotes staging to production after archiving the old model.
- It predicts the next price and turns that prediction into a BUY, SELL or HOLD decision record.
- Its account screens show the trade history, the buy and sell signals, and an order form.

The model follows the program file by file, one module per source file:

- Code that updates objects in place becomes a Dafny `class`: the pipeline status record, the scaler processors with their lazy `is_fitted` flag, the ensemble and its constituent models, the configuration manager, the dataset builder and the month fetcher.
- Its methods are proved against specification functions.
- Pure rules become functions with lemmas. Examples are the month arithmetic, the market-symbol formats, the trade-action rule, the weighted average cost, the order-size guard, the history join/fill/gain rule, the signal formula, the order-form checks and the trend display.

Storage is a map from keys to blobs, with the miss behaviour of the S3 helper. These things are parameters of the model:

- the clock;
- the exchange answers;
- the object listing;
- the learned predictors;
- `sqrt`/`log1p`/`expm1`.

Prices are exact `real`s. Python's truncating `int()`, its `xs[-n:]` slices and numpy broadcasting are written out. A pandas Series multiplied by a numpy array keeps the Series' length: a broadcast to any other length raises.

Some of the model's results are surprising consequences of the program as written:

- The decision rule's confidence is a sum rather than a difference, so HOLD is never chosen for a non-negative prediction (`AutoTrade.NeverHold`).
- A rise of up to 5% gives SELL (`AutoTrade.BuyIff`).
- The training route's "already in progress" guard can never fire (`MlTrainRoutes.NeverInProgress`).
- The default market setting "BTC/JPY" makes every symbol format raise (`MarketSymbols.DefaultSettingRaises`).

## Model

| member | source | states |
|---|---|---|
| DateHelper.FirstDayOfMonth | backend/utils/date_helper.py:12-14 | the first day of the input's month and year, a valid date |
| DateHelper.LastDayOfMonth | backend/utils/date_helper.py:16-18 | the same month and year, on the month's last day (28 to 31, leap years included) |
| DateHelper.FirstDayOfNextMonth | backend/utils/date_helper.py:20-22 | the first day of the following month, December rolling over into January of the next year |
| DateHelper.LastDayThenFirstOfNext | backend/utils/date_helper.py:16-22 | the day after the month's last day is the first day of the next month |
| DateHelper.OnlyYearAndMonthMatter | backend/utils/date_helper.py:12-22 | two dates in the same month get the same result from all three helpers |
| DataProcessing.ResolveColumn | backend/utils/data_processing.py:28 | numpy's column index: valid exactly for -width <= c < width, and a negative index counts from the end |
| DataProcessing.GenerateSequences | backend/utils/data_processing.py:8-30 | the loop yields the windows and targets of the specification `Windows` |
| DataProcessing.WindowCount | backend/utils/data_processing.py:23-26 | data no longer than the window gives two empty results; otherwise there are len(data) - L windows and as many targets; the target column is the only thing that can fail |
| DataProcessing.WindowShape | backend/utils/data_processing.py:26-28 | window i is rows i .. i+L-1 and its target is the target column of row i+L |
| MlTrainRoutes.ResultFor | backend/routes/ml_train.py:21-27 | the result is reported exactly when the status is "Completed", and it is that status's result; otherwise the fixed message |
| MlTrainRoutes.NeverInProgress | backend/routes/ml_train.py:10-11 | no status the service can reach reads "In Progress", so the guard of the start route never fires |
| MlTrainRoutes.ResultAfterSuccess | backend/routes/ml_train.py:21-27 | after a successful run the result route answers with that run's (empty) result |
| MlTrainRoutes.TrainRouter.constructor | backend/routes/ml_train.py:4-5 | one shared pipeline service, not started, no run queued |
| MlTrainRoutes.TrainRouter.StartTraining | backend/routes/ml_train.py:7-14 | refuses exactly while the status reads "In Progress", otherwise queues one run and answers "Training started" |
| MlTrainRoutes.TrainRouter.RunQueued | backend/routes/ml_train.py:13 | a queued run executes the pipeline; the status record ends as the pipeline's last status and stays reachable |
| MlTrainRoutes.TrainRouter.GetStatus | backend/routes/ml_train.py:16-19 | the status record as it stands, never "In Progress" |
| MarketSymbols.ChosenSymbol | backend/utils/market_symbol.py:18-20 | a non-empty symbol argument wins; otherwise the configured "market_symbol" setting |
| MarketSymbols.FormatSpec | backend/utils/market_symbol.py:22-37 | accepted exactly when the symbol has one underscore and the format is raw, ccxt, base or quote; then raw is prefix + lower-case symbol, ccxt is BASE/QUOTE, base and quote are the upper-cased parts |
| MarketSymbols.LowerKeepsUnderscores | backend/utils/market_symbol.py:22 | lower-casing neither adds nor removes an underscore, so the check sees the symbol's own parts |
| MarketSymbols.LowerIdempotent | backend/utils/market_symbol.py:29 | lower-casing twice is lower-casing once |
| MarketSymbols.RawIsNormal | backend/utils/market_symbol.py:28-35 | formatting the raw form again succeeds exactly when formatting the symbol does, with the same ccxt, base and quote |
| MarketSymbols.PartsAreUpper | backend/utils/market_symbol.py:26-35 | base and quote hold no underscore and no lower-case letter |
| MarketSymbols.DefaultSettingRaises | backend/config/config_manager.py:10 | with no symbol and the default setting "BTC/JPY" every format raises ValueError (no underscore) |
| ModelBase.KeyShape | backend/models/ml/ml_model_base.py:41-48 | the key is folder, stage and file name joined by "/" |
| ModelBase.ArtifactKeysByStage | backend/models/ml/ml_model_base.py:41-48 | two stages without "/" never share a key, and the key ends in the file name |
| ModelBase.PredictWith | backend/models/ml/ml_model_base.py:16-18 | a prediction exists exactly when the library object exists and was fitted |
| ModelBase.MlModel.constructor | backend/models/ml/ml_model_base.py:7-10 | no library object yet, and the sequence flag as given |
| ModelBase.MlModel.Xgboost | backend/models/ml/xgboost_model.py:1-37 | an unfitted regressor that is not a sequence model |
| ModelBase.MlModel.Train | backend/models/ml/ml_model_base.py:12-14 | fails exactly when there is no library object; otherwise the object now holds its training data |
| ModelBase.MlModel.SaveToS3 | backend/models/ml/ml_model_base.py:35-43 | a fitted model is stored at {folder}/{stage}/{file} and the temporary file is removed; otherwise nothing changes |
| ModelBase.MlModel.LoadFromS3 | backend/models/ml/ml_model_base.py:45-51 | the model is replaced only when the key holds a model file; a missing key changes nothing |
| ModelBase.LoadOutcome | backend/models/ml/ml_model_base.py:49-51 | "not found" exactly when the key is missing, "loaded" exactly when it holds a model file |
| ConfigManagement.SetDefaultsSpec | backend/config/config_manager.py:45-46 | after the setdefault loop the keys are the stored ones plus the defaults', stored values are kept, and a missing key takes its first default |
| ConfigManagement.SetDefaultsPresent | backend/config/config_manager.py:45-46 | when every default key is present the loop changes nothing |
| ConfigManagement.SetDefaultsIdempotent | backend/config/config_manager.py:45-46 | loading twice fills nothing more |
| ConfigManagement.Loaded | backend/config/config_manager.py:44-46 | loading succeeds exactly when a JSON object is stored |
| ConfigManagement.ParseConfig | backend/config/config_manager.py:20-29 | a validated config has every one of the eight fields |
| ConfigManagement.ParseToFields | backend/config/config_manager.py:20-29 | a config survives the round trip through its dict |
| ConfigManagement.SetDefaultsStep | backend/config/config_manager.py:45-46 | one more turn of the loop is one more setdefault |
| ConfigManagement.DefaultsAreAConfig | backend/config/config_manager.py:9-18 | an empty document loads as exactly the defaults, which validate as the default config |
| ConfigManagement.SavedConfigLoadsUnchanged | backend/config/config_manager.py:37-48 | a config saved and loaded again comes back unchanged |
| ConfigManagement.ConfigManager.constructor | backend/config/config_manager.py:32-34 | the store as given, nothing loaded yet |
| ConfigManagement.ConfigManager.LoadConfig | backend/config/config_manager.py:42-48 | the cache becomes the stored document with the defaults filled in, and the result is the specification `Loaded` |
| ConfigManagement.ConfigManager.SaveConfig | backend/config/config_manager.py:37-40 | the document is stored under the config key and the cache replaced by it |
| ConfigManagement.ManagerCache.constructor | backend/config/config_manager.py:55 | an empty cache |
| ConfigManagement.ManagerCache.GetConfigManager | backend/config/config_manager.py:55-58 | a cached manager is returned unchanged; otherwise one is made, loaded and kept when loading succeeds |
| BinanceFetching.CandlesToTable | backend/models/exchanges/binance_fetcher.py:19-21 | six named columns and one row per candle, in order |
| BinanceFetching.EmptyIffNoCandles | backend/models/exchanges/binance_fetcher.py:19-21 | the frame is empty exactly when the exchange returned nothing |
| BinanceFetching.CloseColumn | backend/models/exchanges/binance_fetcher.py:20-21 | the close and timestamp columns list those fields of the candles, in order |
| BinanceFetching.SinceDaysBefore | backend/models/exchanges/binance_fetcher.py:16 | the start is midnight of today minus exactly `days` whole days, in milliseconds |
| BinanceFetching.Limit | backend/models/exchanges/binance_fetcher.py:31 | int(1440 / interval): the number of whole intervals in a day, truncated toward zero; ZeroDivisionError for 0 |
| BinanceFetching.TimeframeUnits | backend/models/exchanges/binance_fetcher.py:32-36 | whole days from one day up, whole hours from one hour up, minutes below |
| BinanceFetching.FetchOhlcv | backend/models/exchanges/binance_fetcher.py:14-23 | the candles the exchange gives for the symbol, interval, start and limit, as a frame |
| BinanceFetching.DailyIsFetchWithDerivedArguments | backend/models/exchanges/binance_fetcher.py:25-44 | fetching a day is fetching with the derived timeframe and limit; it fails only for interval 0 |
| BinanceFetching.LegacyAgreesBelowAnHour | backend/models/binance_fetcher.py:25-38 | below one hour the older fetcher asks the same thing; 15 minutes gives 96 candles of "15m" |
| YFinance.MinInstant | backend/models/exchanges/yfinance_fetcher.py:36-45 | min of two datetimes: one of them and no later than either |
| YFinance.CachePathShape | backend/models/exchanges/yfinance_fetcher.py:12-13 | the path ends in "_" + the month in two digits + ".csv" |
| YFinance.MonthBackSpec | backend/models/exchanges/yfinance_fetcher.py:69-70 | the month is a calendar month exactly i months before today's |
| YFinance.MonthRange | backend/models/exchanges/yfinance_fetcher.py:31-36 | a range exists exactly for a valid year and month |
| YFinance.MonthRangeIsTheMonth | backend/models/exchanges/yfinance_fetcher.py:31-36 | from midnight of the first day to the first of the next month or now, whichever is earlier |
| YFinance.Chunks | backend/models/exchanges/yfinance_fetcher.py:44-50 | the chunks are well formed (see `ChunksSpec`) |
| YFinance.ChunkEnd | backend/models/exchanges/yfinance_fetcher.py:45 | 30 days on, or the end if earlier; a chunk before the end always advances |
| YFinance.ChunksSpec | backend/models/exchanges/yfinance_fetcher.py:44-50 | no chunk exactly when start >= end; otherwise they run from start to end, contiguous, each of positive length at most 30 days |
| YFinance.Downloads | backend/models/exchanges/yfinance_fetcher.py:46-49 | one request per chunk, in chunk order |
| YFinance.KeepFirstSpec | backend/models/exchanges/yfinance_fetcher.py:54 | the rows kept come from the input, have distinct dates, cover every date, and include each date's first row |
| YFinance.CurrentMonthBypassesCache | backend/models/exchanges/yfinance_fetcher.py:22-57 | the running month leaves the disk unchanged and is downloaded whatever the cache holds |
| YFinance.PastMonthIsCached | backend/models/exchanges/yfinance_fetcher.py:26-58 | a past month that was fetched is written to its cache file, and fetching it again reads that file |
| YFinance.MonthDatesDistinct | backend/models/exchanges/yfinance_fetcher.py:53-54 | a downloaded month has no repeated date |
| YFinance.Insert | backend/models/exchanges/yfinance_fetcher.py:76 | insertion adds exactly one row |
| YFinance.SortByIndex | backend/models/exchanges/yfinance_fetcher.py:76 | the sorted rows are a permutation of the input |
| YFinance.SortByIndexSpec | backend/models/exchanges/yfinance_fetcher.py:76 | the rows are in date order and distinct dates stay distinct |
| YFinance.Finish | backend/models/exchanges/yfinance_fetcher.py:78-79 | one row per row, with the date moved into "timestamp" |
| YFinance.MonthsFetch | backend/models/exchanges/yfinance_fetcher.py:68-72 | a successful run fetched k months |
| YFinance.MonthsFailureSticks | backend/models/exchanges/yfinance_fetcher.py:68-72 | once a month raises, asking for more months gives the same error |
| YFinance.MonthsInOrder | backend/models/exchanges/yfinance_fetcher.py:68-72 | month j of a run is the fetch of the month j months before today, newest first |
| YFinance.JoinMonthsSpec | backend/models/exchanges/yfinance_fetcher.py:73-77 | the joined months are in date order, without repeated dates, covering every date fetched |
| YFinance.YFinanceFetcher.constructor | backend/models/exchanges/yfinance_fetcher.py:8-10 | the cache folder as given |
| YFinance.YFinanceFetcher.FetchMonth | backend/models/exchanges/yfinance_fetcher.py:15-60 | the result and the disk after are the specification `MonthFetch` |
| YFinance.YFinanceFetcher.DownloadMonth | backend/models/exchanges/yfinance_fetcher.py:38-54 | the loop's requests are those of the chunks, joined and with repeated dates dropped |
| YFinance.YFinanceFetcher.FetchLastNMonths | backend/models/exchanges/yfinance_fetcher.py:62-81 | the result and the disk after are the specification `LastMonthsFetch` |
| FeatureDataset.SquaredDeviations | backend/models/feature_dataset_model.py:23-24 | a sum of squared deviations is never negative, so the sample deviation is real |
| FeatureDataset.RollingMeanSeries | backend/models/feature_dataset_model.py:20 | the rolling mean, row by row, one value per input row |
| FeatureDataset.RollingStdSeries | backend/models/feature_dataset_model.py:23-24 | the rolling sample deviation, row by row, one value per input row |
| FeatureDataset.PlusScaledSeries | backend/models/feature_dataset_model.py:23-24 | `sma + k * std` cell by cell, missing where either operand is |
| FeatureDataset.RsiSeries | backend/models/feature_dataset_model.py:27 | the simplified RSI cell by cell |
| FeatureDataset.TrueRangeSeries | backend/models/feature_dataset_model.py:30 | the true range as written, cell by cell |
| FeatureDataset.TrColumn | backend/models/feature_dataset_model.py:30-31 | the `tr` column read back, one value per row |
| FeatureDataset.DataFrame.constructor | backend/models/feature_dataset_model.py:16 | the caller's frame |
| FeatureDataset.CreateFeatures | backend/models/feature_dataset_model.py:16-33 | fails with KeyError exactly when one of the four price columns is absent, at the first statement that reads it (close at line 20, high then low at 27, the VITE close at 30), leaving the caller's frame with the assignments already made; otherwise the frame gains the six columns in place and the result is that frame without incomplete rows |
| FeatureDataset.FeatureValues | backend/models/feature_dataset_model.py:20-31 | each row keeps its cells and gains sma_5, the two bands, rsi, tr and atr computed from its own and earlier rows |
| FeatureDataset.FeatureColumnsAdded | backend/models/feature_dataset_model.py:7-31 | the columns are the input's followed by the six feature columns not already present |
| FeatureDataset.SmaIsTrailingMean | backend/models/feature_dataset_model.py:20 | sma_5 is missing for the first four rows and then the mean of the last five closes |
| FeatureDataset.BandsSymmetric | backend/models/feature_dataset_model.py:23-24 | with five closes present the bands sit 2 deviations above and below sma_5, upper >= sma_5 >= lower |
| FeatureDataset.RsiRange | backend/models/feature_dataset_model.py:27 | with high >= low > 0 the simplified RSI lies in [50, 100) |
| FeatureDataset.TrueRangeBound | backend/models/feature_dataset_model.py:30 | with high >= low the true range is at least high - low, never negative |
| FeatureDataset.AtrIsTrailingMean | backend/models/feature_dataset_model.py:31 | atr is missing for the first 13 rows and then the mean of the last 14 true ranges |
| FeatureDataset.WarmupValuesPresent | backend/models/feature_dataset_model.py:20-31 | on a clean frame every derived value is present from row 13 on |
| FeatureDataset.CompleteAfterWarmup | backend/models/feature_dataset_model.py:33 | on a clean frame every extended row from row 13 on is complete |
| FeatureDataset.DropsExactlyWarmup | backend/models/feature_dataset_model.py:33 | on a clean frame `dropna` removes exactly the first 13 rows |
| FeatureDataset.RollingMeanPrefix | backend/models/feature_dataset_model.py:20-31 | a rolling mean of a prefix is the prefix of the rolling mean |
| FeatureDataset.RollingStdPrefix | backend/models/feature_dataset_model.py:23-24 | a rolling deviation of a prefix is the prefix of the rolling deviation |
| FeatureDataset.NoLookAhead | backend/models/feature_dataset_model.py:20-31 | the features of the first k rows do not depend on any later row |
| CryptoDataset.SymbolTag | backend/models/crypto_training_dataset.py:54-89 | the tag has the symbol's length and no "/" |
| CryptoDataset.HistoricalDataPathShape | backend/models/crypto_training_dataset.py:77-91 | a day's file lies in its market's folder under the historical folder and ends in the date and ".parquet" |
| CryptoDataset.DaysAgoAsWritten | backend/utils/date_helper.py:4-10 | as written, subtracting a plain date from an aware datetime always raises TypeError |
| CryptoDataset.DaysAgo | backend/utils/date_helper.py:4-10 | the intended count of whole days: positive for a past date, 0 for today |
| CryptoDataset.DaysAgoStartsAtDate | backend/models/crypto_training_dataset.py:48 | fetching that many days back starts at midnight of the requested date |
| CryptoDataset.CacheThrough | backend/models/crypto_training_dataset.py:44-50 | a non-empty cached table is returned and the store kept; otherwise the download is returned and stored under the key; no other key changes |
| CryptoDataset.RenameKeyInjective | backend/models/crypto_training_dataset.py:55-56 | the rename never merges two columns |
| CryptoDataset.RenameRow | backend/models/crypto_training_dataset.py:55-56 | every cell is kept under its new name and nothing else appears |
| CryptoDataset.RenameColumns | backend/models/crypto_training_dataset.py:55-56 | the same number of columns and rows, each column and row renamed |
| CryptoDataset.RenamedCells | backend/models/crypto_training_dataset.py:55-56 | a renamed row keeps its timestamp and every other cell under the new name |
| CryptoDataset.RenamedTagged | backend/models/crypto_training_dataset.py:54-56 | after the rename every column but the timestamp carries a market tag |
| CryptoDataset.AggregateTagged | backend/models/crypto_training_dataset.py:52-62 | aggregating a market keeps every non-timestamp column tagged with a market |
| CryptoDataset.CollectNext | backend/models/crypto_training_dataset.py:36-37 | one more day appends that day's rows |
| CryptoDataset.CollectedInDateOrder | backend/models/crypto_training_dataset.py:35-38 | days are appended in date order: an earlier collection is a prefix of a later one |
| CryptoDataset.CollectKeepsOtherKeys | backend/models/crypto_training_dataset.py:44-50 | collecting only writes keys under the days' folder |
| CryptoDataset.CryptoTrainingDataset.constructor | backend/models/crypto_training_dataset.py:13-25 | the end is the day before creation, the start the configured number of months before the end, and the data empty |
| CryptoDataset.CryptoTrainingDataset.DownloadAsksForTheDay | backend/models/crypto_training_dataset.py:48 | with the intended day count a download asks for exactly that day's 96 candles of 15 minutes |
| CryptoDataset.CryptoTrainingDataset.CacheMissFailsAsWritten | backend/models/crypto_training_dataset.py:44-50 | as written every cache miss raises; a cache hit returns the cached table |
| CryptoDataset.CryptoTrainingDataset.VisitedDays | backend/models/crypto_training_dataset.py:34-38 | the loop visits exactly the days from the start up to, not including, the end |
| CryptoDataset.CryptoTrainingDataset.DayBeforeEnd | backend/models/crypto_training_dataset.py:35 | day i comes before the end exactly when i is below the number of days |
| CryptoDataset.CryptoTrainingDataset.CollectStep | backend/models/crypto_training_dataset.py:36-38 | one more day of the collection is that day fetched through the cache |
| CryptoDataset.CryptoTrainingDataset.CollectionStaysInHistory | backend/models/crypto_training_dataset.py:45-49 | every key the collection writes lies under the historical folder |
| CryptoDataset.CryptoTrainingDataset.GatheredColumnsTagged | backend/models/crypto_training_dataset.py:32-39 | once a market is gathered every non-timestamp column carries a market tag |
| CryptoDataset.CryptoTrainingDataset.GatherAll | backend/models/crypto_training_dataset.py:32-39 | with the corrected day count of Findings row 1, each market in turn is collected day by day and aggregated into the data, as the specification `Gather` states |
| CryptoDataset.CryptoTrainingDataset.Load | backend/models/crypto_training_dataset.py:64-69 | the data becomes the table stored under the training-set key (empty when absent) |
| CryptoDataset.CryptoTrainingDataset.Save | backend/models/crypto_training_dataset.py:71-75 | the data is stored under the training-set key unless it is empty |
| CryptoDataset.CryptoTrainingDataset.FetchOhlcv | backend/models/crypto_training_dataset.py:44-50 | with the corrected day count of Findings row 1, the day is read through the cache, as the specification `FetchDay` says |
| CryptoDataset.CryptoTrainingDataset.Aggregate | backend/models/crypto_training_dataset.py:52-62 | the first market's renamed table becomes the data; later ones are inner-joined on the timestamp |
| CryptoDataset.CryptoTrainingDataset.Collect | backend/models/crypto_training_dataset.py:33-38 | with the corrected day count of Findings row 1, the loop's table and store are those of the fold `CollectDays` over the visited days |
| CryptoDataset.CryptoTrainingDataset.GetData | backend/models/crypto_training_dataset.py:27-42 | a non-empty cached set is returned unchanged; otherwise, with the corrected day count of Findings row 1, every market is gathered and the result, when not empty, is stored |
| Conversion.ColumnVector | backend/models/min_max_scaler_processor.py:65-67 | `reshape(-1, 1)`: one single-cell row per item, in order |
| Conversion.FlattenColumnVector | backend/models/min_max_scaler_processor.py:65-74 | flattening an n x 1 column gives the items back |
| Conversion.ConvertRoundTrip | backend/models/min_max_scaler_processor.py:61-77 | converting a DataFrame, Series or array and converting it back gives the original; a list comes back as a nested n x 1 list |
| Conversion.ToNumpyShape | backend/models/min_max_scaler_processor.py:61-68 | a Series or a list becomes an n x 1 column of its items, a DataFrame its values; the result is rectangular |
| Conversion.ConvertBackKeepsLabels | backend/models/min_max_scaler_processor.py:70-77 | the result keeps the original's kind, columns, index and name, whatever the transformed array |
| MinMaxScaling.ColMin | backend/models/min_max_scaler_processor.py:17-18 | the least value of the column, one of its own values |
| MinMaxScaling.ColMax | backend/models/min_max_scaler_processor.py:17-18 | the greatest value of the column, one of its own values |
| MinMaxScaling.Fit | backend/models/min_max_scaler_processor.py:10-18 | fitting succeeds exactly for an increasing range and a non-empty array; it records each column's minimum and maximum |
| MinMaxScaling.Range | backend/models/min_max_scaler_processor.py:17-18 | a column's data range, a zero range counting as 1, is never zero |
| MinMaxScaling.CheckInput | backend/models/min_max_scaler_processor.py:28-39 | transforming requires a fitted scaler with an increasing range |
| MinMaxScaling.Transform | backend/models/min_max_scaler_processor.py:28-32 | the scaled array has the input's shape |
| MinMaxScaling.Inverse | backend/models/min_max_scaler_processor.py:39-43 | the unscaled array has the input's shape |
| MinMaxScaling.ScaleNonZero | backend/models/min_max_scaler_processor.py:17-18 | the scale factor of every column is non-zero, so the transform can be inverted |
| MinMaxScaling.RoundTrip | backend/models/min_max_scaler_processor.py:28-39 | `inverse_transform` undoes `transform` exactly |
| MinMaxScaling.ScaledBounds | backend/models/min_max_scaler_processor.py:10-17 | a value between the column's minimum and maximum scales into the feature range |
| MinMaxScaling.FitTransformInRange | backend/models/min_max_scaler_processor.py:16-18 | fitting on an array and transforming it puts every value inside the feature range |
| MinMaxScaling.ScalerKeys | backend/models/min_max_scaler_processor.py:46-50 | the X and y scalers have distinct keys inside the stage's folder |
| MinMaxScaling.FitState | backend/models/min_max_scaler_processor.py:17-18 | a fit keeps the scaler's range and leaves it fitted |
| MinMaxScaling.ReadBack | backend/models/min_max_scaler_processor.py:61-77 | converting back and reading again gives the array that was converted |
| MinMaxScaling.ProcessorRoundTrip | backend/models/min_max_scaler_processor.py:24-44 | for DataFrame, array or Series data, `inverse_transform` of `transform`'s result gives back X and y, labels included |
| MinMaxScaling.MinMaxScalerProcessor.constructor | backend/models/min_max_scaler_processor.py:9-14 | two unfitted scalers over the range, not fitted |
| MinMaxScaling.MinMaxScalerProcessor.Default | backend/models/min_max_scaler_processor.py:9 | stage "staging" and range (0, 1) |
| MinMaxScaling.MinMaxScalerProcessor.Save | backend/models/min_max_scaler_processor.py:52-54 | both scalers are stored under their keys, X first |
| MinMaxScaling.MinMaxScalerProcessor.Load | backend/models/min_max_scaler_processor.py:56-59 | both scalers are replaced by what the store holds, and the processor counts as fitted |
| MinMaxScaling.MinMaxScalerProcessor.FitTransform | backend/models/min_max_scaler_processor.py:16-22 | X's scaler is fitted first; only when both fits succeed is the processor fitted and saved, and the scaled data returned |
| MinMaxScaling.MinMaxScalerProcessor.TransformData | backend/models/min_max_scaler_processor.py:24-33 | loads first when not fitted, then scales X and (when given) y; y's result is present exactly when y was given |
| MinMaxScaling.MinMaxScalerProcessor.InverseTransform | backend/models/min_max_scaler_processor.py:35-44 | loads first when not fitted, then unscales X and (when given) y |
| MinMaxScaling.SaveThenLoad | backend/models/min_max_scaler_processor.py:52-59 | the scalers a processor saves are what a fresh processor on the same stage loads |
| LogZScaling.Fit | backend/models/scalers/log_z_scaler_processor.py:18 | fitting succeeds exactly for a non-empty array, with one mean and one non-zero scale per column |
| LogZScaling.CheckInput | backend/models/scalers/log_z_scaler_processor.py:30-38 | transforming requires a fit with one mean and one non-zero scale per column |
| LogZScaling.Standardise | backend/models/scalers/log_z_scaler_processor.py:30 | the standardised array has the input's shape |
| LogZScaling.Unstandardise | backend/models/scalers/log_z_scaler_processor.py:38 | the unstandardised array has the input's shape |
| LogZScaling.StandardRoundTrip | backend/models/scalers/log_z_scaler_processor.py:30-38 | unstandardising a standardised array gives it back |
| LogZScaling.MapCells | backend/models/scalers/log_z_scaler_processor.py:55-59 | the function applied to every cell, shape kept |
| LogZScaling.LogRoundTrip | backend/models/scalers/log_z_scaler_processor.py:53-59 | the inverse log gives back every value clamped at 0: negative values come back as 0 |
| LogZScaling.AsMatrix | backend/models/scalers/log_z_scaler_processor.py:61-68 | the converted data is rectangular |
| LogZScaling.MapCellsRectangular | backend/models/scalers/log_z_scaler_processor.py:55 | a cellwise map keeps a rectangular shape and width |
| LogZScaling.ProcessorRoundTrip | backend/models/scalers/log_z_scaler_processor.py:25-41 | for DataFrame or array data, `inverse_transform` of `transform`'s result is the data clamped at 0, labels included |
| LogZScaling.LogZScalerProcessor.constructor | backend/models/scalers/log_z_scaler_processor.py:10-14 | an unfitted scaler and a processor that is not fitted |
| LogZScaling.LogZScalerProcessor.Load | backend/models/scalers/log_z_scaler_processor.py:49-51 | the scaler becomes what the store holds and the processor counts as fitted |
| LogZScaling.LogZScalerProcessor.FitTransform | backend/models/scalers/log_z_scaler_processor.py:16-23 | log first, then fit in place, mark fitted and save; the result is the standardised log data in the original's form |
| LogZScaling.LogZScalerProcessor.Transform | backend/models/scalers/log_z_scaler_processor.py:25-32 | loads first when not fitted, then logs and standardises |
| LogZScaling.LogZScalerProcessor.InverseTransform | backend/models/scalers/log_z_scaler_processor.py:34-41 | loads first when not fitted, then unstandardises and undoes the log |
| Ensemble.MinLength | backend/models/ensemble_model.py:63 | the length of the shortest prediction, which is one of their lengths |
| Ensemble.MeanPredictions | backend/models/ensemble_model.py:61-68 | as long as the shortest prediction |
| Ensemble.MeanBetween | backend/models/ensemble_model.py:67-68 | each averaged element lies between a lower and an upper bound of the models' elements at that place |
| Ensemble.EqualLengthsKeepLength | backend/models/ensemble_model.py:61-62 | predictions of equal length give a result of that same length, nothing trimmed |
| Ensemble.SingleModelIdentity | backend/models/ensemble_model.py:12-68 | with the one enabled model the ensemble predicts exactly what that model predicts |
| Ensemble.CutToShortest | backend/models/ensemble_model.py:61-68 | for any predictions, the mean equals the mean of every prediction cut to the shortest length, and the cut predictions all have that length |
| Ensemble.TwoModelMean | backend/models/ensemble_model.py:61-68 | for any two predictions, the mean has the shorter length and holds (a[j] + b[j]) / 2 at every index |
| Ensemble.MeanExamples | backend/models/ensemble_model.py:61-68 | two worked instances of the rules above: [1,2,3] and [3,4,5] average to [2,3,4], and [1,2,3] and [3,4] to [2,3] |
| Ensemble.AllPredictions | backend/models/ensemble_model.py:56-59 | one prediction per model, in dict order; it fails exactly when some model cannot predict |
| Ensemble.AllImportances | backend/models/ensemble_model.py:70-74 | one importance per model, in dict order; it fails exactly when some model's fails |
| Ensemble.EffectiveStage | backend/models/ensemble_model.py:52 | `stage or self.stage`: a non-empty stage wins, otherwise the ensemble's own |
| Ensemble.EnsembleModel.constructor | backend/models/ensemble_model.py:9-17 | the one constituent is an unfitted XGBoost model, under the given stage |
| Ensemble.EnsembleModel.Default | backend/models/ensemble_model.py:9 | the default stage is "staging" |
| Ensemble.EnsembleModel.Train | backend/models/ensemble_model.py:20-29 | every model is trained on the data and saved under the stage; it fails exactly when some model has no library object |
| Ensemble.EnsembleModel.TrainFrom | backend/models/ensemble_model.py:27-29 | the loop of train over given states: it stops at the first model without a library object; otherwise every model is trained, every artifact uploaded and every temporary file removed |
| Ensemble.EnsembleModel.TrainAt | backend/models/ensemble_model.py:28-29 | one step of train: a model without a library object stops the loop, otherwise it is trained and saved, other models untouched |
| Ensemble.EnsembleModel.SaveAt | backend/models/ensemble_model.py:29 | saving a fitted model adds its artifact under the stage and removes its temporary file |
| Ensemble.EnsembleModel.LoadAll | backend/models/ensemble_model.py:46-48 | each model loads from the stage; a missing artifact leaves that model as it was; the first failing load stops the loop, and the models before it keep what they loaded |
| Ensemble.EnsembleModel.LoadAt | backend/models/ensemble_model.py:46-48 | one step of the load: the model's outcome is the artifact's, other models untouched |
| Ensemble.EnsembleModel.LoadModel | backend/models/ensemble_model.py:46-48 | every model loads from the ensemble's own stage |
| Ensemble.EnsembleModel.SaveModel | backend/models/ensemble_model.py:50-52 | despite its name it loads every model, from `stage or self.stage` |
| Ensemble.EnsembleModel.Predict | backend/models/ensemble_model.py:54-68 | the mean of the models' predictions, cut to the shortest; fails exactly when a model cannot predict |
| Ensemble.EnsembleModel.FeatureImportance | backend/models/ensemble_model.py:70-74 | the models' importances in dict order |
| MlPipeline.TestCount | backend/services/ml_pipeline_service.py:53 | the test part of a 0.2 split is ceil(n/5) rows |
| MlPipeline.TrainTestSplit | backend/services/ml_pipeline_service.py:53 | without shuffling: the first rows train and the last ceil(n/5) test, the two parts concatenating back to X and y; mismatched lengths or an empty training part are errors |
| MlPipeline.Finish | backend/services/ml_pipeline_service.py:55-68 | training, prediction and evaluation either all succeed with the five normal records, or stop at the failing step with a "Failed" record |
| MlPipeline.Prepare | backend/services/ml_pipeline_service.py:33-53 | lagging, scaling and splitting keep the same run shape |
| MlPipeline.RunWith | backend/services/ml_pipeline_service.py:18-73 | every run is shaped: on success all five records and all steps; on failure a prefix of them and then "Failed" with the error text |
| MlPipeline.SuccessTrace | backend/services/ml_pipeline_service.py:23-68 | a successful run writes progress 10, 20, 60, 80, then 100 "Completed", and lags with the 96-bar horizon |
| MlPipeline.TraceShape | backend/services/ml_pipeline_service.py:16-73 | progress never goes down within a run, no run writes "In Progress", and every run ends at progress 100 |
| MlPipeline.LastStatus | backend/services/ml_pipeline_service.py:68-73 | a run ends on "Completed" when it succeeds and on "Failed" with its error otherwise |
| MlPipeline.MlPipelineService.constructor | backend/services/ml_pipeline_service.py:10-16 | the status starts as progress 0, "Not started" |
| MlPipeline.MlPipelineService.RunPipeline | backend/services/ml_pipeline_service.py:18-73 | the steps run in order with each stage's record written before them; the records and the outcome are those of `RunWith`; it ends "Completed" or "Failed" with the error, and the error is raised again |
| MlPipeline.FeatureStage | backend/services/ml_pipeline_service.py:23-31 | after a successful fetch, a run records "Fetching" then "Processing", and either fails with the feature error right there or continues with the records and the outcome of `Prepare` |
| MlPipeline.MlPipelineService.SetStatus | backend/services/ml_pipeline_service.py:23 | the status record is replaced whole and appended to the history |
| MlPipeline.MlPipelineService.RecordFailure | backend/services/ml_pipeline_service.py:70-73 | the record becomes "Failed" with the error text and the same error is raised |
| MlPipeline.MlPipelineService.RunFeatures | backend/services/ml_pipeline_service.py:28-53 | "Processing" is recorded before the features are built; a feature error is recorded as "Failed" and raised, otherwise the records and the outcome are those of `Prepare` after its first two records |
| MlPipeline.MlPipelineService.RunPrepared | backend/services/ml_pipeline_service.py:33-53 | lagging, scaling and splitting, then training: the records after "Processing" and the outcome are those of `Prepare` |
| MlPipeline.MlPipelineService.RunFinish | backend/services/ml_pipeline_service.py:55-73 | "Training" before training and "Evaluating" before prediction: the records from "Training" on and the outcome are those of `Finish` |
| MlEvaluate.EvaluationStart | backend/services/ml_evaluate_service.py:28 | a valid date exactly three calendar months before the end, the day clamped to the month's length |
| MlEvaluate.SliceFrom | backend/services/ml_evaluate_service.py:47-53 | Python's `s[k:]`: a suffix of s; a negative k counts from the end, and out-of-range starts give the empty or the whole list |
| MlEvaluate.FutureDates | backend/services/ml_evaluate_service.py:48 | `lag` stamps, the i-th `frame * (i + 1)` minutes after the last date |
| MlEvaluate.AlignDates | backend/services/ml_evaluate_service.py:47-49 | the tail of the timestamps from position lag - n, followed by the future stamps |
| MlEvaluate.AlignActual | backend/services/ml_evaluate_service.py:53-54 | the same tail of the closes, followed by `lag` sentinel values -1 |
| MlEvaluate.AlignedDates | backend/services/ml_evaluate_service.py:47-49 | with 0 < lag < n, the labels are the last n - lag timestamps then `lag` future stamps: n labels in all, one per prediction |
| MlEvaluate.ReportFor | backend/services/ml_evaluate_service.py:44-66 | a missing timestamp or close column raises; otherwise the report holds both models' predictions, the fixed placeholder scores, and as many actual values as dates |
| MlEvaluate.FrameTransformShaped | backend/services/ml_evaluate_service.py:91 | scaling a DataFrame gives a DataFrame of the same labels |
| MlEvaluate.InverseColumn | backend/services/ml_evaluate_service.py:95-96 | unscaling an n x 1 column and flattening it gives the predictions unscaled one by one |
| MlEvaluate.UnscaleColumn | backend/services/ml_evaluate_service.py:95-96 | the unscaled predictions, element by element, through y's scaler |
| MlEvaluate.PredictFlowSteps | backend/services/ml_evaluate_service.py:89-98 | a successful prediction scaled X, got a prediction from every model, and unscaled their mean |
| MlEvaluate.PredictStage | backend/services/ml_evaluate_service.py:89-98 | the scaler ends fitted; a failed transform fails before any model loads; otherwise the models are loaded in order from the ensemble's stage, a failed load fails the prediction, and when every load succeeds the prediction succeeds exactly when `PredictFlow` does and then equals it |
| MlEvaluate.LoadThenPredict | backend/services/ml_evaluate_service.py:93-98 | the models are loaded in order from the ensemble's stage and the scalers are kept; a failed load fails, and when every load succeeds the result is the loaded models' unscaled mean prediction exactly when that succeeds |
| MlEvaluate.PredictLoaded | backend/services/ml_evaluate_service.py:94-98 | with the models as loaded, the result succeeds exactly when averaging their predictions and unscaling the mean does, and then equals it |
| MlEvaluate.DisjointFolders | backend/services/ml_evaluate_service.py:77-80 | a key under one folder is not under another whose name differs at a shared position |
| MlEvaluate.PromoteModel | backend/services/ml_evaluate_service.py:72-87 | production is copied to today's archive, then staging over production; the first failing copy stops the promotion with its error |
| MlEvaluate.ArchivedSurvives | backend/services/ml_evaluate_service.py:82-83 | an archived production artifact survives the second copy |
| MlEvaluate.StagingPromoted | backend/services/ml_evaluate_service.py:82-83 | a staging artifact reaches production with its value from before the promotion |
| MlEvaluate.ArchiveFolderShape | backend/services/ml_evaluate_service.py:79-80 | the archive folder lies under "ml_models/archived/" |
| MlEvaluate.PromotionArchivesOldProduction | backend/services/ml_evaluate_service.py:72-84 | after a promotion the archive holds production as it was, and production holds staging |
| MlEvaluate.PromotionMissesSettingsFolder | backend/services/ml_evaluate_service.py:77-78 | models saved under a settings folder outside "ml_models" are in neither folder a promotion copies |
| AutoTrade.DetermineTradeAction | backend/services/auto_trade_service.py:64-91 | the execution price is moved 5% toward the prediction; confidence is \|(predicted + adjusted) / adjusted\|; HOLD exactly below 0.01, BUY exactly when not HOLD and the prediction beats the adjusted price; a zero price divides by zero |
| AutoTrade.NeverHold | backend/services/auto_trade_service.py:77-81 | with a non-negative prediction and a positive price the confidence is at least 1, so HOLD is never chosen |
| AutoTrade.BuyIff | backend/services/auto_trade_service.py:71-85 | BUY exactly when the prediction is above 105% of the price, or above 95% and not above it; a rise of up to 5% is a SELL |
| AutoTrade.HoldNeedsNegativePrediction | backend/services/auto_trade_service.py:77-81 | a HOLD against a positive price needs a negative prediction |
| AutoTrade.Trunc | backend/services/auto_trade_service.py:45-46 | `int(x)`: truncation toward zero |
| AutoTrade.TradeKey | backend/services/auto_trade_service.py:60 | the key lies in the trade folder under "trade/BTC_USDT_" and ends in ".json" |
| AutoTrade.TradeKeyPerDay | backend/services/auto_trade_service.py:40-60 | two executions share a key exactly when they fall on the same day, whatever the time: one record per execution day, a later run that day replacing it |
| AutoTrade.PredictionDate | backend/services/auto_trade_service.py:44 | the dataset's end date moved by whole days only: a date plus a timedelta keeps the day count and drops the minutes |
| AutoTrade.LastClose | backend/services/auto_trade_service.py:45 | the last row's BTC/USDT close, truncated; it needs a row, the column and a number |
| AutoTrade.LastPrediction | backend/services/auto_trade_service.py:46 | the first value of the last prediction row, truncated; it needs both to exist |
| AutoTrade.BuildRecord | backend/services/auto_trade_service.py:40-59 | the record holds the truncated last close and prediction, the decision on them, the market, the formatted execution date and the prediction date; a zero close raises |
| AutoTrade.NoticeFor | backend/services/auto_trade_service.py:96-117 | the no-trade text exactly for HOLD; the trade text shows the execution date on its date line; the debug prefix follows the setting |
| AutoTrade.NoticeAlwaysTrade | backend/services/auto_trade_service.py:77-97 | with a non-negative prediction the no-trade notice is never sent |
| AutoTrade.AutoTradeService.constructor | backend/services/auto_trade_service.py:16-18 | the store and the debug setting as given |
| AutoTrade.AutoTradeService.Predict | backend/services/auto_trade_service.py:40-62 | the record is the specification `BuildRecord` and is stored under today's key; a failure stores nothing |
| AutoTrade.AutoTradeService.Run | backend/services/auto_trade_service.py:20-28 | the notice of the stored record; the record is the only change, no order is placed |
| Storage.LocalDisk.constructor | backend/utils/s3_helper.py:20-28 | the local files as given |
| Storage.TableAt | backend/utils/s3_helper.py:79-89 | a missing key reads as the empty DataFrame |
| Storage.MovedInDst | backend/services/ml_evaluate_service.py:82-83 | a copied object lands under the destination folder |
| Storage.MovedInjective | backend/services/ml_evaluate_service.py:82-83 | two objects of the source folder never land on the same key |
| Storage.CopiedFolder | backend/services/ml_evaluate_service.py:82-83 | every object under the source folder is copied to the same relative key under the destination; nothing is deleted, and only keys under the destination change |
| Storage.S3Store.constructor | backend/utils/s3_helper.py:14-18 | the bucket's objects as given |
| Storage.S3Store.SaveJson | backend/utils/s3_helper.py:43-54 | the document is stored under the key, nothing else changes |
| Storage.S3Store.LoadJson | backend/utils/s3_helper.py:56-66 | the stored document, or None for a missing key |
| Storage.S3Store.SaveParquet | backend/utils/s3_helper.py:68-77 | the table is stored under the key, nothing else changes |
| Storage.S3Store.LoadParquet | backend/utils/s3_helper.py:79-89 | the stored table, or the empty DataFrame for a missing key |
| Storage.S3Store.SavePkl | backend/utils/s3_helper.py:91-97 | the object is stored under the key, nothing else changes |
| Storage.S3Store.LoadPkl | backend/utils/s3_helper.py:99-109 | the stored object, or (as an empty DataFrame) nothing for a missing key |
| Storage.S3Store.Upload | backend/utils/s3_helper.py:20-28 | a local file is stored under the key and deleted when asked; a missing file changes nothing |
| Storage.S3Store.DownloadFile | backend/utils/s3_helper.py:111-119 | true exactly when the key exists, and then the object is written to the local path |
| Storage.S3Store.CopyFolder | backend/services/ml_evaluate_service.py:82-83 | the store becomes `CopiedFolder` of what it was |
| TradeHistory.MarketTagsAre | backend/models/crypto_training_dataset.py:15 | the dataset's market tags are "VITE_USDT" and "BTC_USDT" |
| TradeHistory.Prefixes | backend/services/trade_history_service.py:20-21 | the listing prefix is "trade/BTC_USDT_" under the setting "BTC_USDT", and "trade/BTC/JPY_" (a sub-folder) under the default |
| TradeHistory.DecisionKeysFound | backend/services/trade_history_service.py:21-22 | a key the trader writes is listed under the "BTC_USDT" setting and not under "BTC/JPY" |
| TradeHistory.MarketSettingDecidesWhatIsFound | backend/services/trade_history_service.py:21-49 | under the setting "BTC_USDT" every decision key is found and the close column is the one the dataset builds for BTC/USDT; under "BTC/JPY" none is found |
| TradeHistory.DefaultCloseColumnAbsent | backend/services/trade_history_service.py:49-56 | under the default setting the close column is none of the dataset's columns |
| TradeHistory.ParseDay | backend/services/trade_history_service.py:23 | a parsed day is a valid date |
| TradeHistory.WithDays | backend/services/trade_history_service.py:23 | every record gets midnight of its execution day; it fails exactly when some execution date does not parse |
| TradeHistory.ParseFormatted | backend/services/trade_history_service.py:23 | a rendered ISO date reads back as that date |
| TradeHistory.ExecutionDayOfRecord | backend/services/auto_trade_service.py:52 | a decision record's execution date floors to midnight of the day it was written |
| TradeHistory.DateOf | backend/services/trade_history_service.py:53 | the calendar day of a timestamp is a valid date |
| TradeHistory.DateOfMidnight | backend/services/trade_history_service.py:53 | midnight of a day renders as that day |
| TradeHistory.InsertByTime | backend/services/trade_history_service.py:40 | insertion adds exactly one row |
| TradeHistory.SortByTime | backend/services/trade_history_service.py:40 | the sorted rows are a permutation of the input |
| TradeHistory.InsertByTimeSorted | backend/services/trade_history_service.py:40 | inserting into sorted rows keeps them sorted |
| TradeHistory.SortByTimeSpec | backend/services/trade_history_service.py:40 | the sorted rows are the same rows, in time order, missing times last |
| TradeHistory.FillRowSpec | backend/services/trade_history_service.py:42-45 | after the fill no cell is missing; present cells are kept; missing prices become 0 and anything else missing "N/A" |
| TradeHistory.Cells | backend/services/trade_history_service.py:53-59 | one cell per row, in order |
| TradeHistory.Gains | backend/services/trade_history_service.py:47-50 | one gain per row: 0 for no position, close minus execution price otherwise; a non-numeric cell fails |
| TradeHistory.DayTexts | backend/services/trade_history_service.py:53 | one date text per row |
| TradeHistory.FirstMissing | backend/services/trade_history_service.py:48-59 | none exactly when every named column exists; otherwise a named column the frame lacks |
| TradeHistory.FillRows | backend/services/trade_history_service.py:42-45 | every row filled, in order |
| TradeHistory.Records | backend/services/trade_history_service.py:22 | one row per loaded document, in listing order |
| TradeHistory.ReportOfSpec | backend/services/trade_history_service.py:52-60 | all seven lists have one entry per row; investment amounts equal predicted prices; each list reads its column |
| TradeHistory.CloseIsNotAPrice | backend/services/trade_history_service.py:43-49 | the close column is never one of the two filled price columns |
| TradeHistory.FilledReport | backend/services/trade_history_service.py:42-60 | the lists read off the rows before the fill: prices with missing as 0, closes and dates as they were, no-position rows gaining 0 |
| TradeHistory.HistoryContents | backend/services/trade_history_service.py:20-60 | a successful history is sorted by time, is exactly the left join of the candles with the records, and gives seven lists of equal length with prices defaulted to 0 and the gain rule applied |
| TradeHistory.TraderRecordJoinsItsCandle | backend/services/trade_history_service.py:23-39 | a decision record written on a day lands on that day's candle in the join |
| TradeHistory.Loaded | backend/services/trade_history_service.py:22 | the documents at the listed keys, in listing order, None for a missing key |
| TradeHistory.BuildHistory | backend/services/trade_history_service.py:22-62 | the frame is built, sorted and filled in place, and the result is the specification `History` |
| TradeHistory.LoadAll | backend/services/trade_history_service.py:22 | the loop loads the documents of the specification `Loaded` |
| TradeHistory.TradeHistoryService.constructor | backend/services/trade_history_service.py:12-14 | the settings read at construction and the shared store |
| TradeHistory.TradeHistoryService.GetHistory | backend/services/trade_history_service.py:16-62 | for keys listed under the configured market's prefix, the history of the documents at those keys |
| CoinCheck.AvgCost | backend/models/exchanges/coincheck_api.py:67-79 | none exactly when the amounts sum to zero (an empty list included); otherwise the average times the total amount is the total cost |
| CoinCheck.AvgCostPermutation | backend/models/exchanges/coincheck_api.py:67-79 | the average does not depend on the order the exchange lists the trades in |
| CoinCheck.AvgCostIgnoresSide | backend/models/exchanges/coincheck_api.py:71-72 | the trades' side plays no part: equal prices and amounts give equal totals and average |
| CoinCheck.CostBetween | backend/models/exchanges/coincheck_api.py:71-72 | with non-negative amounts the total cost lies between the lowest and highest price times the total amount |
| CoinCheck.AmountPositive | backend/models/exchanges/coincheck_api.py:72-74 | trades with positive amounts have a positive total amount, so the average exists |
| CoinCheck.AvgCostBetween | backend/models/exchanges/coincheck_api.py:67-79 | with positive amounts the weighted average exists and lies between the lowest and the highest trade price |
| CoinCheck.SumByAppend | backend/models/exchanges/coincheck_api.py:71-72 | the sum over two trade lists joined is the sum of their sums |
| CoinCheck.SumByPermutation | backend/models/exchanges/coincheck_api.py:71-72 | a sum over trades does not depend on their order |
| CoinCheck.Balance | backend/models/exchanges/coincheck_api.py:16-20 | one balance per "_"-separated piece of the market |
| CoinCheck.BalanceSpec | backend/models/exchanges/coincheck_api.py:16-20 | the balances are found exactly when the report has every piece of the market, and are those pieces' balances in the market's order |
| CoinCheck.BalanceOfBtcJpy | backend/models/exchanges/coincheck_api.py:16-20 | the market "btc_jpy" gives the "btc" balance, then the "jpy" one |
| CoinCheck.LimitOrder | backend/models/exchanges/coincheck_api.py:22-24 | a limit order carries the kind "limit" and the caller's price |
| CoinCheck.MarketOrder | backend/models/exchanges/coincheck_api.py:26-28 | a market order carries the kind "market" and no price |
| CoinCheck.OrdersDifferOnlyInKindAndPrice | backend/models/exchanges/coincheck_api.py:22-28 | both kinds of order go to the configured market with the caller's side and amount; only the kind and the price differ |
| CryptTrade.CreateLimitOrderAsWritten | backend/services/crypt_trade_service.py:29-36 | the method as written asks the API wrapper for a ticker call it does not define, so it fails |
| CryptTrade.AsWrittenNeverOrders | backend/services/crypt_trade_service.py:31 | as written no order is ever sent, not even 0.001 BTC at 10,000,000, which the guard accepts |
| CryptTrade.CreateLimitOrder | backend/services/crypt_trade_service.py:32-36 | the order is sent exactly when a last rate exists and both amount times rate and amount times price are at most 1,000,000, and it is then the client's limit order with the caller's side, amount and price |
| CryptTrade.GuardBoundary | backend/services/crypt_trade_service.py:34 | an order of exactly 1,000,000 passes the guard and one just above it is refused |
| CryptTrade.GuardMonotone | backend/services/crypt_trade_service.py:34 | a smaller amount at the same price and rate passes whenever a larger one does |
| CryptTrade.CryptTradeService.constructor | backend/services/crypt_trade_service.py:14-17 | the settings and the shared store the service reads |
| CryptTrade.CryptTradeService.GetHistoryArchive | backend/services/crypt_trade_service.py:38-82 | the same history as the trade history service's for the configured market and the listed keys |
| Signals.GetSignals | backend/services/signal_predictor.py:12-14 | the placeholder signal is always a buy at confidence 0.95 |
| Signals.Tail | backend/services/signal_predictor.py:39-42 | Python's last-n slice: n items when 0 < n ≤ length, otherwise the whole list (n = 0 keeps all), always a suffix |
| Signals.Negate | backend/services/signal_predictor.py:36 | the sell predictions with every sign flipped, same length |
| Signals.NegateTwice | backend/services/signal_predictor.py:36 | negating twice gives the predictions back |
| Signals.PriceColumnAgrees | backend/services/signal_predictor.py:39-42 | the corrected column name exists exactly when the as-written one does, and the two differ only in the case of the setting |
| Signals.LowerNeverUpperT | backend/utils/market_symbol.py:29 | a lower-cased text has no upper-case "T" |
| Signals.AsWrittenColumnNeverInDataset | backend/services/signal_predictor.py:39-42 | the lower-cased column names are never columns of the dataset, whose tagged columns end in the "T" of "USDT" |
| Signals.PriceColumnMatchesDataset | backend/services/signal_predictor.py:39-42 | with the market "BTC_USDT" each corrected name is the column the dataset wrote for that candle value |
| Signals.AllSeries | backend/services/signal_predictor.py:39-42 | all four series succeed exactly when each does, in order |
| Signals.Rate | backend/services/signal_predictor.py:45-46 | a target rate missing from the settings cannot multiply the predictions |
| Signals.BroadcastLength | backend/services/signal_predictor.py:47 | numpy broadcasting: equal lengths or a length-1 operand, otherwise an error |
| Signals.Factors | backend/services/signal_predictor.py:47 | the factor 1 + buy·tb + sell·ts at every index of the broadcast length, failing exactly when the lengths do not broadcast |
| Signals.Prices | backend/services/signal_predictor.py:47 | succeeds exactly when the operands broadcast to the close Series' own length and every close is numeric; then one price per close, the close times its factor |
| Signals.OneCloseNeedsOneFactor | backend/services/signal_predictor.py:40-47 | a one-row close Series times a factor array of any other length raises, although numpy alone would broadcast it |
| Signals.PredictSignalsParts | backend/services/signal_predictor.py:26-58 | a successful prediction holds the buy list, the sell list negated, each candle list as the last len(buy) rows and one price per close, the close times its factor |
| Signals.AssembledRows | backend/services/signal_predictor.py:39-52 | the date and close at i are those of the i-th of the last len(buy) rows |
| Signals.AssembledPrices | backend/services/signal_predictor.py:47 | with aligned lengths the price at i is close·(1 + buy·tb − sell·ts) |
| Signals.AssembledAligned | backend/services/signal_predictor.py:39-52 | with as many sell as buy predictions and enough rows, every list has one entry per prediction, row i is the i-th of the last len(buy) candles and its price is close·(1 + buy·tb − sell·ts) |
| Signals.PredictSignalsAligned | backend/services/signal_predictor.py:16-58 | every list has one entry per prediction, row i is the i-th of the last len(buy) candles and its price is close·(1 + buy·tb − sell·ts) |
| Signals.TailAligned | backend/services/signal_predictor.py:39-42 | the last n items, position by position |
| Signals.AlignedPrices | backend/services/signal_predictor.py:36-47 | without broadcasting the price at i is close·(1 + buy·tb − sell·ts) |
| Signals.ValidatedSettingsCannotPredict | backend/services/signal_predictor.py:44-47 | settings that passed the configuration model have no target rates, so the prediction always fails |
| Signals.LoadSignalModelAsWritten | backend/services/signal_predictor.py:30-34 | loading with a signal argument always raises |
| Signals.ProductionArtifacts | backend/services/signal_predictor.py:21-34 | the buy and the sell model read the same production file, never the staging one, and the scaler reads the production scaler |
| Signals.SameModelMirrors | backend/services/signal_predictor.py:30-47 | as both models are one file, the sell list is the buy list negated and the price moves by buy·(tb − ts) |
| OrderForm.GetOrZero | frontend/pages/components/order_form.py:6-8 | a balance or rate the report lacks reads 0, one it has reads its value |
| OrderForm.EstimateOf | frontend/pages/components/order_form.py:26-33 | blank exactly when a field is empty; a cost exactly when both fields are numbers, and then price times amount; otherwise a request for numbers |
| OrderForm.SubmitExactlyWhenAcceptable | frontend/pages/components/order_form.py:42-59 | an order is sent exactly when both fields are filled, are numbers and pass every check (side chosen, amount ≥ 0.001, buying within the JPY balance, selling within the BTC balance, cost ≤ 1,000,000, price within 0.8–1.2 of the rate), and then with "buy" for 買い and "sell" for 売り and the texts as typed |
| OrderForm.MinimumComesFirst | frontend/pages/components/order_form.py:43-48 | an amount below 0.001 is reported as such whatever the price, balances or rate |
| OrderForm.BalanceChecksBySide | frontend/pages/components/order_form.py:49-52 | the JPY balance is checked only when buying and the BTC balance only when selling |
| OrderForm.BoundsInclusive | frontend/pages/components/order_form.py:47-56 | an amount of exactly 0.001, a cost of exactly 1,000,000 and a price exactly 0.8 or 1.2 times the rate are not refused for that reason |
| OrderForm.EstimateAgreesWithLimit | frontend/pages/components/order_form.py:26-54 | the estimate shown is at most 1,000,000 exactly when the order is not refused as too large |
| OrderForm.MissingRateNeverSubmits | frontend/pages/components/order_form.py:8-59 | a ticker without a last rate reads 0, so no order is ever sent: the band check divides by zero |
| TradingView.TrendOf | frontend/pages/components/trading_view.py:10-14 | up exactly when the buy prediction is larger in magnitude, down exactly when the sell one is, neutral on a tie |
| TradingView.TrendSymmetric | frontend/pages/components/trading_view.py:10-14 | swapping the two predictions swaps up and down and keeps neutral |
| TradingView.LabelsDistinct | frontend/pages/components/trading_view.py:16-20 | the three trend labels differ |
| TradingView.Trunc | frontend/pages/components/trading_view.py:25 | Python's int() of a float truncates toward zero |
| TradingView.PredictSummary | frontend/pages/components/trading_view.py:5-27 | a summary exists exactly when all three series are non-empty |
| TradingView.SummarySpec | frontend/pages/components/trading_view.py:5-27 | the summary depends on the last entries alone; its delta is the larger prediction in magnitude and the label names the trend it decides |
| TradingView.BuyMarkers | frontend/pages/components/trading_view.py:37 | one marker slot per buy prediction |
| TradingView.SellMarkers | frontend/pages/components/trading_view.py:38 | one marker slot per sell prediction |
| TradingView.BuyMarkersSpec | frontend/pages/components/trading_view.py:37 | a buy marker sits exactly where the prediction exceeds 0.5, at that value |
| TradingView.SellMarkersSpec | frontend/pages/components/trading_view.py:38 | a sell marker sits exactly where the prediction is below −0.5, at that value |
| TradingView.SellMarkersOfNegated | frontend/pages/components/trading_view.py:37-38 | on the predictor's negated sell list a sell marker appears exactly where the model predicts more than 0.5, mirroring the buy marker |
| TradingView.OrderLines | frontend/pages/components/trading_view.py:47-57 | one dotted line per open order, at its price, spanning the first to the last date; orders without dates fail |

## Left out

- Network, S3 and disk I/O. The exchanges (Binance, Coincheck, Yahoo Finance) are functions or values passed in. The S3 bucket and the local disk are maps held by `Storage.S3Store` and `Storage.LocalDisk`, with the helper's miss behaviour: None, an empty table, an empty frame, False.
- The S3 listing (`get_s3_files`) is a parameter: the listed keys come in as values.
- `copy_s3_folder_recursive` is called by the promotion but is not defined in backend/utils/s3_helper.py. It is modelled as the evident prefix copy, which adds or overwrites objects and deletes none. A fault parameter stands for the copy raising.
- The clock (`datetime.now`/`utcnow`) is a parameter wherever it is read: the date helper, the dataset's default dates, the evaluation, the promotion's archive folder and the decision record.
- Floating point: prices and scaled values are exact reals. Float rounding, NaN comparisons and infinities are not modelled, except that NaN is a missing cell.
- `sqrt`, `log1p` and `expm1` are an abstract record (`Numerics`). The model assumes only the facts the source relies on: the square root is non-negative, and expm1 undoes log1p on non-negative inputs.
- The learned models (XGBoost and the other wrappers under backend/models/ml/) and the Optuna optimiser are an abstract learner. Only their artifact filenames are modelled. The feature-importance values come from it too.
- `create_features_` (backend/models/feature_dataset_model.py:35-116) is not part of this model: it is entirely talib indicator calls.
- The lagging, feature-selection and dataset-preparation steps the pipeline, auto-trader and debug service call are not defined in the feature model. They are steps passed in that may fail. So are the evaluator's metrics.
- Concurrency: the FastAPI background task is a queued call that runs later, in order. Two runs never interleave in the model.
- The Slack notice and HTTP posting: the model computes the message chosen, not the post.
- `CryptTradeService.get_balance` and `get_transactions` (backend/services/crypt_trade_service.py:19-27) are not modelled. They only forward to the exchange client: one through the undefined `get_ticker`, the other calling `get_trade_history`/`get_open_orders` without the market argument.
- Streamlit widgets: the session-state defaults of the order form, the polling page and the response of `post_limit_order` are left out. The form is modelled from the field texts on.
- Plotly drawing: the chart is modelled as the markers and lines it is given. Number formatting (`:,`, `.4f`) is not modelled.
- pandas details: merge suffixes on clashing column names are left out; no joined tables in the model share a non-key column. The order among rows with equal timestamps after `sort_values` is left unspecified, because pandas' default sort is not stable. Boolean and object JSON cells read as missing. `to_datetime` is modelled on ISO "YYYY-MM-DD[ HH:MM:SS]" texts only.
- `Signals.ValidatedSettingsCannotPredict`: it follows the configuration model's eight fields. The target rates read by the predictor are not among them, so predictions on validated settings always fail. The stored document may hold more keys.
- `MarketSymbols.DefaultSettingRaises`: the model covers the default setting "BTC/JPY" only. Other settings without exactly one "_" raise too, as `MarketSymbols.FormatSpec` states.
- `Storage.S3Store.CopyFolder`: the copy deletes nothing, so production files that staging lacks survive a promotion. The helper that really performs the copy is not part of this model, so whether it deletes them is not known.
- Dates: years outside 0001–9999 are not bounded as Python bounds them.
- The dataset's day loop is modelled on plain dates, as its constructor sets them. Callers that replace start and end with aware datetimes (trade history, trading, signals) receive the candle table as a value instead.
- Case mapping: `lower` and `upper` are modelled on ASCII letters only. Python maps every Unicode letter ("É".lower() is "é"); the model leaves other characters unchanged.

## Findings

| source | as written | input that shows it | evidently intended | confidence | as-written member | corrected member |
|---|---|---|---|---|---|---|
| backend/utils/date_helper.py:4-10 | `get_days_ago` subtracts the dataset's `date` from an aware `datetime`; Python raises TypeError. The dataset's own dates are plain `date`s (backend/models/crypto_training_dataset.py:19-20), so with them every cache miss of `fetch_ohlcv` fails. Callers that set aware datetimes as start and end (backend/services/trade_history_service.py:33-34) are not affected | any day whose candle file is not yet stored, e.g. an empty store, with the constructor's dates | the whole days from the given day to today | not executed | `CryptoDataset.CryptoTrainingDataset.CacheMissFailsAsWritten` | `CryptoDataset.DaysAgoStartsAtDate` |
| backend/services/crypt_trade_service.py:31 | `create_limit_order` calls `get_ticker`, which `CoinCheckAPI` does not define, so every order raises AttributeError | any side, amount and price, e.g. buy 0.001 at 10,000,000 | read the last rate, then apply the 1,000,000 guard and forward the order | not executed | `CryptTrade.AsWrittenNeverOrders` | `CryptTrade.GuardBoundary` |
| backend/services/signal_predictor.py:39-42 | the price columns are named with `market_symbol`, which lower-cases the setting, but the dataset's columns keep its case | market "BTC_USDT": "close_btc_usdt" is looked up, the dataset holds "close_BTC_USDT" | the dataset's own column names | not executed | `Signals.AsWrittenColumnNeverInDataset` | `Signals.PriceColumnMatchesDataset` |
| backend/services/signal_predictor.py:30-34 | `load_model(SIGNAL_BUY)` passes an argument `EnsembleModel.load_model` (backend/models/ensemble_model.py:46) does not take, so it raises TypeError | any call of `get_predict_signals` | load the production ensemble | not executed | `Signals.LoadSignalModelAsWritten` | `Signals.ProductionArtifacts` |
