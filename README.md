# epftoolbox2 walk-forward core, modelled in Dafny

epftoolbox2 is a toolbox for electricity price forecasting. Its forecasting
models share a walk-forward engine. For every day of a testing period, every
forecast horizon and every hour, the engine:

- cuts a training slice and a one-row test slice out of a prepared hourly dataset;
- standardises them;
- asks a model strategy for a prediction;
- records the prediction next to the true value.

Evaluators then reduce those records. The MAE evaluator gives mean absolute
errors overall, per horizon, or per hour and horizon. The coefficients
evaluator gives the coefficients of the fitted linear models. Several data
transformations and sources add columns to the hourly frames the engine
reads:

- lagged copies of columns;
- calendar and holiday encodings;
- the request parameters of the Open-Meteo weather source.

The project models these pieces and proves what they promise. The modules are:

| module | models |
|---|---|
| `Wrappers` | `Option` and `Result` |
| `Text` | `str(n)`, `startswith`, `replace`, ASCII lower-casing, `[:n]`, `split(c)[0]` |
| `OrderedDict` | Python dictionaries: insertion order kept, assignment to an existing key keeps its position, `defaultdict(list)` appends |
| `Frame` | a column-oriented data frame: an index and named columns. The `DataFrame` class updates in place (`df[name] = …`, `set_index`) |
| `Dataset` | the row-oriented hourly dataset the models read: hour, day, and a cell per column that may be missing |
| `BaseModel` | `preprocess`, `processPredictors`, `extractTrainAndTest`, the task grid of `run`, `worker`, and the order-preserving `pool.imap` |
| `ModelWorker` | the stand-alone worker: the mask form of the extraction, and the record with the prediction mapped back through the scaler |
| `StandardScaler` | dummy/numeric classification, standardisation fitted on train only, and the inverse |
| `NaiveModel` | the default predictor name and the strategy that answers the first test predictor |
| `BaseEvaluator` | the sheet name truncated to Excel's 31 characters |
| `MaeEvaluator` | `_calculate_mae`, `_evaluate_all`, `_evaluate_daily`, `_evaluate_hourly`, `evaluate`, `append_metrics_to_df` |
| `CoefsEvaluator` | `_get_validated_coefs`, `_flatten_to_long_format`, `evaluate`, the row building of `append_metrics_to_df` |
| `LagTransformation` | lag column naming, `shift`, and the lag transform |
| `CalendarEncoding` | indicator columns, holiday columns, and the weekday names and numbers shared by the two calendar modules |
| `CalendarTransformation` | `_create_is_list`, `_transform_template`, `_transform_holidays`, `transform` |
| `CalendarSource` | `fetch`: weekday and holiday columns, then the frame indexed by its time stamps |
| `OpenMeteoSource` | the constructor's argument checks, `_create_api_params`, and the naming of response columns |

Imperative code is modelled imperatively:

- `preprocess`, `processPredictors`, the task loops of `run` and the flattening
  loops of the evaluators are methods. Their loops carry invariants, and each
  method is proved equal to a specification function.
- The frames mutated in place are a `DataFrame` class. Its `Assign`, `AssignAll`
  and `SetIndex` state the whole new state.
- The scaler that remembers its target fit is a class over arrays.

Two defects of the calendar transformation are reproduced, not repaired,
because downstream code reads the columns under the names the transformation
actually writes. First, the month one-hot pairs `calendar.month_name`, which
starts with an empty entry, with month numbers from 1, so every month column is
shifted by one (`CalendarTransformation.MonthlyOneHotShifted`). Second, the
quarter names already carry `is_` and get it again, giving `is_is_q1` to
`is_is_q4` (`CalendarTransformation.QuarterlyOneHotDoublePrefix`).

Calendar facts are inputs. For each row the model is given the day of the
week, the month, the quarter and the holiday name, if any. Geocoding, the
numeric fitter and the model strategies are function parameters.

## Model

| member | source | states |
|---|---|---|
| BaseEvaluator.SheetName | src/evaluators/BaseEvaluator.py:7 | the sheet name is a prefix of the name, at most 31 characters long, and equals the name when that is short enough |
| BaseEvaluator.SheetNameIdempotent | src/evaluators/BaseEvaluator.py:7 | truncating an already truncated name changes nothing |
| BaseEvaluator.New | src/evaluators/BaseEvaluator.py:6-7 | the evaluator keeps its report kind and stores a name of at most 31 characters that begins the given name, and is the name itself when short enough; the MAE and coefficient evaluators construct themselves this way |
| BaseModel.LeadNameInjective | src/models/BaseModel.py:49 | two lead columns `target_d+i` and `target_d+j` have the same name exactly when i = j |
| BaseModel.LeadNameNotReserved | src/models/BaseModel.py:49-54 | no lead column is named `numeric_index`, `hour`, `ones` or `day`, so later assignments never overwrite a lead |
| BaseModel.DayOrdinalMonotone | src/models/BaseModel.py:50-54 | `day = numeric_index // 24` never decreases along the rows |
| BaseModel.DayOrdinalCover | src/models/BaseModel.py:50-54 | day 0 holds rows 0..22 and day k ≥ 1 holds rows 24k−1..24k+22: counting from 1 puts the first day's last hour into day 1 |
| BaseModel.WithLeadsCells | src/models/BaseModel.py:48-49 | after the lead loop, lead i of row r is the target 24·i rows later, missing past the end; every other column is as before, and only the leads are added |
| BaseModel.PreparedRow | src/models/BaseModel.py:46-55 | a row built with the leads and the four fixed columns satisfies the preparation predicate |
| BaseModel.Preprocess | src/models/BaseModel.py:46-55 | the copied rows are the prepared rows, one per input row; each has its leads, `numeric_index` r+1, its hour, `ones` = 1 and `day` = (r+1) div 24 |
| BaseModel.ProcessPredictors | src/models/BaseModel.py:91-102 | a callable predictor list is expanded first; then one name per entry in order: callables applied to the horizon, strings with `{horizon}` replaced by the horizon |
| BaseModel.TemplateWithoutPlaceholder | src/models/BaseModel.py:100 | a name without `{horizon}` is kept as it is |
| BaseModel.TemplateResolved | src/models/BaseModel.py:100 | no `{horizon}` is left in a resolved name |
| BaseModel.FilterKept | src/models/BaseModel.py:110-114 | the mask keeps exactly the rows of the hour whose day lies in the window, in dataset order |
| BaseModel.FilterSelected | src/models/BaseModel.py:110-114 | every kept row comes from the dataset and satisfies the mask |
| BaseModel.ExtractShape | src/models/BaseModel.py:109-117 | test is the last filtered row, or empty when nothing is kept; train is the filtered rows minus the last 1 + horizon, empty when there are no more |
| BaseModel.ExtractRowsInWindow | src/models/BaseModel.py:110-116 | every row of train and test is of the requested hour and inside the window |
| BaseModel.NoLookahead | src/models/BaseModel.py:112-115 | with one row per day, every training row lies at least 1 + horizon days before the test row |
| BaseModel.TestRowIsForecastDay | src/models/BaseModel.py:110-116 | when the dataset has the forecast day's row for the hour, the test slice is exactly one row, of that day and hour |
| BaseModel.HorizonBlockCells | src/models/BaseModel.py:65-66 | one day's task cells are the 24·n (horizon, hour) pairs, sorted |
| BaseModel.GridSize | src/models/BaseModel.py:64-66 | the nested loops make days × horizon × 24 tasks |
| BaseModel.GridMembers | src/models/BaseModel.py:64-66 | a cell is visited exactly when its day, horizon and hour are in range |
| BaseModel.GridSorted | src/models/BaseModel.py:64-66 | cells are visited in strictly increasing (day, horizon, hour) order, so none is visited twice |
| BaseModel.BuildTasks | src/models/BaseModel.py:63-76 | the task list is one task per grid cell in loop order; tasks of the same day and hour share their slices whatever the horizon |
| BaseModel.Worker | src/models/BaseModel.py:13-31 | the scaler raises, and the task fails, without a train row, a test row or a numeric predictor; otherwise the task succeeds exactly when the strategy answers on the slices standardised for the current horizon's lead, and the record carries that answer's prediction and coefficients, the task's hour, horizon, day and predictors, and the test row's lead as its value |
| BaseModel.MapInOrder | src/models/BaseModel.py:78-83 | `imap` results come back in task order, one per task; the run fails with the first failing task's error |
| BaseModel.RunWorkersSpec | src/models/BaseModel.py:78-83 | the pool's results: all tasks succeed and each record is its task's worker result, in order, or the error is that of the first failing task |
| BaseModel.Run | src/models/BaseModel.py:57-89 | an unknown start or end fails; otherwise the run succeeds exactly when every grid task's worker does, and then holds each task's record in grid order, days × horizon × 24 of them; a failed run reports the first failing task's error |
| ModelWorker.SelectIsFilter | src/models/ModelWorker.py:41-48 | applying the mask is the base model's filter |
| ModelWorker.SameSlicesAsBaseModel | src/models/ModelWorker.py:38-54 | the stand-alone extraction gives the same slices as the base model's |
| ModelWorker.FilterKeepsExactly | src/models/ModelWorker.py:41-48 | the filtered rows are exactly the selected rows, in dataset order |
| ModelWorker.ExtractShape | src/models/ModelWorker.py:49-52 | test is the last filtered row; train drops the last 1 + horizon rows |
| ModelWorker.NoLookahead | src/models/ModelWorker.py:49-52 | training rows end at least 1 + horizon days before the test row |
| ModelWorker.Worker | src/models/ModelWorker.py:8-27 | the scaler raises without a train row, a test row or a numeric predictor; otherwise the worker succeeds exactly when the model answers on the standardised slices; the record carries the context unchanged, the model's answer mapped back through the inverse of train's target fit, the model's coefficients, the test row's target, and each predictor's test value standardised with train's fit when numeric |
| ModelWorker.PredictionIsInverted | src/models/ModelWorker.py:17-18 | when the scaler can fit, a model answering the standardised y yields the prediction y: the scaler's inverse undoes the target fit |
| NaiveModel.DefaultPredictorNameCases | src/models/NaiveModel.py:8 | for horizon < 7 the default predictor is `base_d-(7−horizon)`, otherwise the base name; the base is the target up to its first `_` |
| NaiveModel.New | src/models/NaiveModel.py:6-14 | given predictors are kept, otherwise the single context-computed default; training window 7, no model parameters, no scaling |
| NaiveModel.OneIgnoresTrain | src/models/NaiveModel.py:17-19 | the training slice and the context have no influence on the prediction |
| NaiveModel.OneConstant | src/models/NaiveModel.py:17-19 | a test row of constant value c predicts c |
| StandardScaler.RoundTrip | src/scalers/StandardScaler.py:13-18 | standardising then inverting gives the value back, and conversely |
| StandardScaler.RoundTripAll | src/scalers/StandardScaler.py:13-18 | the inverse undoes the standardisation for every value |
| StandardScaler.DummyColumns | src/scalers/StandardScaler.py:7 | a predictor is a dummy exactly when train has two distinct non-missing values in it |
| StandardScaler.NumericColumns | src/scalers/StandardScaler.py:8 | a predictor is numeric exactly when it is neither a dummy nor the target |
| StandardScaler.NumericColumnsConcat | src/scalers/StandardScaler.py:8 | the classification goes predictor by predictor: that of a concatenation is the concatenation of those |
| StandardScaler.NumericFits | src/scalers/StandardScaler.py:9-10 | one fit per numeric column, each fitted on that column's train values |
| StandardScaler.StandardisedCells | src/scalers/StandardScaler.py:6-15 | numeric predictors of train and test are standardised with train's fit; train's target with its own fit; every other cell, hour and day is unchanged |
| StandardScaler.StandardScaler.Transform | src/scalers/StandardScaler.py:6-15 | it succeeds exactly when train and test have a row and some predictor is numeric; then the arrays are updated in place to the standardised slices and the target's fit is kept; on failure the kept fit and test are untouched and train has its numeric columns scaled only when the test step was the one to raise |
| StandardScaler.StandardScaler.Inverse | src/scalers/StandardScaler.py:17-18 | the prediction mapped back through the kept target fit: a standardised y comes back as y; nothing before a fit |
| MaeEvaluator.CalculateMae | src/evaluators/MaeEvaluator.py:42-43 | the mean of the errors (mean × count = sum), 0 for no errors |
| MaeEvaluator.SumNonNegative | src/evaluators/MaeEvaluator.py:42-43 | a sum of non-negative errors is non-negative |
| MaeEvaluator.MaeNonNegative | src/evaluators/MaeEvaluator.py:42-43 | the mean of non-negative errors is non-negative |
| MaeEvaluator.EvaluateAll | src/evaluators/MaeEvaluator.py:45-47 | a single key `overall_mae`, the mean absolute error of the items that carry a prediction (0 for none), never negative |
| MaeEvaluator.EvaluateAllSkipsUnpredicted | src/evaluators/MaeEvaluator.py:46 | a record without a prediction does not change the overall MAE |
| MaeEvaluator.EvaluateAllCountsPredicted | src/evaluators/MaeEvaluator.py:46 | a record with a prediction adds its absolute error to the errors averaged |
| MaeEvaluator.HorizonKeySeparates | src/evaluators/MaeEvaluator.py:52 | two records share a `horizon_…` bucket exactly when they share a horizon |
| MaeEvaluator.HourKeySeparates | src/evaluators/MaeEvaluator.py:59 | two records share an `hour_…` bucket exactly when they share an hour |
| MaeEvaluator.FoldPredicted | src/evaluators/MaeEvaluator.py:51-52 | the loop fails, as the key lookup does, exactly when some record has no prediction; otherwise it yields the fold of the step over the records |
| MaeEvaluator.DailyErrorsGrouped | src/evaluators/MaeEvaluator.py:50-52 | the loop builds exactly the dictionary of lists grouped by horizon key |
| MaeEvaluator.DailyBuckets | src/evaluators/MaeEvaluator.py:50-53 | each horizon's bucket holds its records' errors in record order; keys are distinct and exactly the horizons present; the buckets hold every record once |
| MaeEvaluator.EvaluateDaily | src/evaluators/MaeEvaluator.py:49-53 | fails exactly when a record has no prediction; otherwise it gives the MAE of every horizon bucket |
| MaeEvaluator.NestedAppendBucket | src/evaluators/MaeEvaluator.py:59 | appending under (hour, horizon) adds the error to that sub-bucket and to no other |
| MaeEvaluator.HourlyBuckets | src/evaluators/MaeEvaluator.py:56-59 | the sub-bucket of an hour and a horizon holds exactly its records' errors, in order |
| MaeEvaluator.HourlyDistinct | src/evaluators/MaeEvaluator.py:56-59 | every hour appears once in the outer dictionary |
| MaeEvaluator.EvaluateHourly | src/evaluators/MaeEvaluator.py:55-60 | fails exactly when a record has no prediction; otherwise the MAE of every (hour, horizon) sub-bucket |
| MaeEvaluator.Evaluate | src/evaluators/MaeEvaluator.py:24-31 | dispatch on the kind; an unknown kind gives an empty result |
| MaeEvaluator.AbsDiff | src/evaluators/MaeEvaluator.py:20 | the cell is numeric exactly when both operands are, and then it is their non-negative distance |
| MaeEvaluator.NotMetricName | src/evaluators/MaeEvaluator.py:18-20 | neither `value` nor a prediction column is a metric column |
| MaeEvaluator.MetricNameIsNew | src/evaluators/MaeEvaluator.py:19-20 | a metric column starts with `mae_` and is neither `value` nor a prediction column |
| MaeEvaluator.MetricsKeepColumns | src/evaluators/MaeEvaluator.py:17-20 | the index and every column not named `mae_…` are unchanged |
| MaeEvaluator.MetricsKeepNames | src/evaluators/MaeEvaluator.py:17-20 | no column is removed |
| MaeEvaluator.MetricsWithoutValue | src/evaluators/MaeEvaluator.py:17-20 | without a `value` column the call fails exactly when there is a prediction column, and otherwise changes nothing |
| MaeEvaluator.MetricsSucceed | src/evaluators/MaeEvaluator.py:17-20 | with a `value` column the loop over the frame's own columns succeeds and keeps all columns as long as the index |
| MaeEvaluator.MetricsColumn | src/evaluators/MaeEvaluator.py:17-20 | column `mae_m` holds \|prediction_m − value\| row by row, unless a later prediction column maps to the same name |
| MaeEvaluator.AppendMetricsToDf | src/evaluators/MaeEvaluator.py:11-22 | an empty frame comes back unchanged; otherwise the new frame is the loop's result, and a failing key leaves the frame as it was |
| CoefsEvaluator.ValidatedCoefs | src/evaluators/CoefsEvaluator.py:90-108 | rejected exactly for falsy predictors, missing or empty coefs, or a length mismatch; otherwise equal-length non-empty lists, a single name wrapped, nested coefs taken from their first row |
| CoefsEvaluator.WrapsSingleName | src/evaluators/CoefsEvaluator.py:97-98 | a single predictor name becomes a one-element list |
| CoefsEvaluator.NestedFirstSupplies | src/evaluators/CoefsEvaluator.py:100-101 | nested coefficients are read from their first row |
| CoefsEvaluator.FlattenedLength | src/evaluators/CoefsEvaluator.py:110-125 | the long format has one row per (predictor, coefficient) pair of the valid records |
| CoefsEvaluator.FlattenedConcat | src/evaluators/CoefsEvaluator.py:110-125 | flattening works record by record: flattening a concatenation concatenates the flattenings |
| CoefsEvaluator.InvalidContributesNothing | src/evaluators/CoefsEvaluator.py:114-115 | an invalid record adds no row |
| CoefsEvaluator.FlattenToLongFormat | src/evaluators/CoefsEvaluator.py:110-125 | the nested loops build exactly the specified long format |
| CoefsEvaluator.Evaluate | src/evaluators/CoefsEvaluator.py:46-58 | a pivot of the long rows exactly when there are records, the long format is not empty and the kind is known; an empty frame otherwise |
| CoefsEvaluator.NoValidItemsIsEmpty | src/evaluators/CoefsEvaluator.py:47-50 | records none of which validate give an empty frame |
| CoefsEvaluator.PairCountInvalid | src/evaluators/CoefsEvaluator.py:110-125 | records none of which validate give no pairs |
| CoefsEvaluator.RowEntriesKeys | src/evaluators/CoefsEvaluator.py:28-29 | a row's keys are distinct and exactly `coef_model_p` for its predictors p |
| CoefsEvaluator.RowEntriesValue | src/evaluators/CoefsEvaluator.py:28-29 | the key of a predictor holds its coefficient, unless the predictor repeats later |
| CoefsEvaluator.CoefKeySeparates | src/evaluators/CoefsEvaluator.py:29 | within one model, two predictors share a key exactly when they are equal |
| CoefsEvaluator.BuildRow | src/evaluators/CoefsEvaluator.py:25-29 | the inner loop builds the specified row of a valid record |
| CoefsEvaluator.ModelRowsCount | src/evaluators/CoefsEvaluator.py:20-30 | a model contributes one row per valid record |
| CoefsEvaluator.AllRowsSkipped | src/evaluators/CoefsEvaluator.py:15-18 | when every model is skipped (no records, or none under `coefs` in the first), no rows are collected |
| CoefsEvaluator.ModelRowsKeys | src/evaluators/CoefsEvaluator.py:28-29 | every key of a model's row names that model |
| CoefsEvaluator.CollectCoefRows | src/evaluators/CoefsEvaluator.py:14-30 | the loops collect exactly the specified rows, model by model and record by record |
| CoefsEvaluator.AppendMetricsToDf | src/evaluators/CoefsEvaluator.py:11-44 | the frame is returned unchanged exactly when no row is collected; otherwise the collected rows are merged |
| LagTransformation.LagNameInjective | src/data/transformations/LagTransformation.py:30 | two lags of a column give the same column name exactly when they are equal, signs included |
| LagTransformation.DayLagInHours | src/data/transformations/LagTransformation.py:31 | a lag of k days shifts by as many rows as a lag of 24k hours, and one more day of lag is one more shift by 24 rows |
| LagTransformation.ShiftShift | src/data/transformations/LagTransformation.py:32 | two shifts in the same direction are one shift by the sum |
| LagTransformation.PastLagReadsEarlierRows | src/data/transformations/LagTransformation.py:30-32 | a non-negative lag reads only earlier rows, and the first rows are missing |
| LagTransformation.PairsLength | src/data/transformations/LagTransformation.py:28-29 | the loops visit \|columns\| × \|lags\| pairs |
| LagTransformation.PairsAt | src/data/transformations/LagTransformation.py:28-29 | pair c·\|lags\| + l is (columns[c], lags[l]): columns outside, lags inside |
| LagTransformation.NewColumnsKeys | src/data/transformations/LagTransformation.py:27-32 | the new column names are distinct and exactly the names of the pairs |
| LagTransformation.NewColumnsValue | src/data/transformations/LagTransformation.py:30-32 | each new column is its source column shifted by the lag's amount, unless a later pair has the same name |
| LagTransformation.NewColumnsHeight | src/data/transformations/LagTransformation.py:32-34 | every new column is as long as the index |
| LagTransformation.NewColumnsFails | src/data/transformations/LagTransformation.py:32 | the transform fails exactly when a listed column is missing from the frame |
| LagTransformation.TransformShape | src/data/transformations/LagTransformation.py:34-35 | the result keeps the index and the original columns first, then the lagged ones |
| LagTransformation.NothingToLag | src/data/transformations/LagTransformation.py:28-35 | without columns or lags the frame comes back unchanged |
| LagTransformation.NewColumnsErrSticks | src/data/transformations/LagTransformation.py:32 | once a column is missing, later pairs do not change the error |
| LagTransformation.TransformLoop | src/data/transformations/LagTransformation.py:25-38 | the nested loops compute exactly the specified transform |
| LagTransformation.PairsPrefixOfAll | src/data/transformations/LagTransformation.py:28-29 | the pairs visited so far are a prefix of all pairs |
| LagTransformation.AsWrittenFails | src/data/transformations/LagTransformation.py:30-31 | as written, any frame with a column and a lag fails with an attribute error |
| LagTransformation.AsWrittenAgreesWhenNothingToLag | src/data/transformations/LagTransformation.py:28-35 | as written and corrected agree when nothing is lagged |
| CalendarEncoding.IndicatorCells | src/data/transformations/CalendarTransformation.py:94-95 | with distinct names, column names[k] marks exactly the rows whose value is k + offset |
| CalendarEncoding.HolidayColumn | src/data/transformations/CalendarTransformation.py:117 | a holiday column name starts with `is_` and has the name's length plus 3 |
| CalendarEncoding.UniqueMembers | src/data/transformations/CalendarTransformation.py:115 | the unique holiday names are distinct and exactly the names present |
| CalendarEncoding.HolidayCells | src/data/transformations/CalendarTransformation.py:116-117 | a holiday present gets a column marking its rows, unless a later name folds to the same column |
| CalendarEncoding.HolidayKeepsOthers | src/data/transformations/CalendarTransformation.py:116-117 | columns not named `is_…` are untouched by the holiday columns |
| CalendarTransformation.Default | src/data/transformations/CalendarTransformation.py:43-50 | by default only the weekday is encoded, as one-hot |
| CalendarTransformation.IsListDistinct | src/data/transformations/CalendarTransformation.py:52-60 | distinct names stay distinct |
| CalendarTransformation.TransformTemplate | src/data/transformations/CalendarTransformation.py:62-100 | the frame is updated in place to the template's result |
| CalendarTransformation.TemplateOneHot | src/data/transformations/CalendarTransformation.py:94-95 | one-hot column `is_` + names[k] is 1 exactly where the comparison series is k + 1 |
| CalendarTransformation.TemplateSingleColumn | src/data/transformations/CalendarTransformation.py:91-99 | no mode changes nothing; list and number modes write their one column and leave every other column alone |
| CalendarTransformation.TransformHolidays | src/data/transformations/CalendarTransformation.py:102-122 | the frame is updated in place to the holiday stage's result |
| CalendarTransformation.Transform | src/data/transformations/CalendarTransformation.py:124-176 | weekday, month, quarter and holiday stages applied in that order, in place |
| CalendarTransformation.NothingConfigured | src/data/transformations/CalendarTransformation.py:91 | with every encoding off the frame comes back unchanged |
| CalendarTransformation.DayNamesDistinct | src/data/transformations/CalendarTransformation.py:138 | the seven day names are distinct |
| CalendarTransformation.WeeklyOneHot | src/data/transformations/CalendarTransformation.py:135-143 | `is_<Day k>` is 1 exactly on the rows whose day of the week is k |
| CalendarTransformation.MonthNamesDistinct | src/data/transformations/CalendarTransformation.py:148 | the thirteen month-name entries are distinct |
| CalendarTransformation.MonthlyOneHotShifted | src/data/transformations/CalendarTransformation.py:145-153 | as written the names are off by one: `is_<month m>` marks month m + 1, `is_December` is always 0, and a column `is_` marks January |
| CalendarTransformation.QuarterlyOneHotDoublePrefix | src/data/transformations/CalendarTransformation.py:156-164 | as written, quarter q is marked in column `is_is_q<q>` |
| CalendarTransformation.HolidayNumber | src/data/transformations/CalendarTransformation.py:120-121 | number mode writes `is_holiday`, 1 exactly where a holiday is present |
| CalendarTransformation.HolidayList | src/data/transformations/CalendarTransformation.py:118-119 | list mode writes `holiday_name`: the name, or the empty string |
| CalendarTransformation.HolidayOneHot | src/data/transformations/CalendarTransformation.py:114-117 | one-hot mode writes `is_<name>` marking each holiday's rows |
| CalendarSource.New | src/data/sources/CalendarSource.py:8-12 | the defaults are weekday one-hot and a holiday flag |
| CalendarSource.Initial | src/data/sources/CalendarSource.py:24-25 | the frame starts with a positional index and the `date` column of time stamps |
| CalendarSource.AddWeekly | src/data/sources/CalendarSource.py:27-36 | the frame is updated in place to the weekday stage's result |
| CalendarSource.AddHolidays | src/data/sources/CalendarSource.py:40-51 | the frame is updated in place to the holiday stage's result |
| CalendarSource.Fetch | src/data/sources/CalendarSource.py:20-59 | a fresh frame: the initial frame, the weekday stage, the holiday stage, then re-indexed by date |
| CalendarSource.WeekdayColumnsDistinct | src/data/sources/CalendarSource.py:30 | the seven weekday column names are distinct |
| CalendarSource.FetchIndex | src/data/sources/CalendarSource.py:53 | the result is indexed by the time stamps and has no `date` column |
| CalendarSource.NothingConfigured | src/data/sources/CalendarSource.py:27-53 | with both encodings off the frame holds only its index |
| CalendarSource.KeptByLaterStages | src/data/sources/CalendarSource.py:40-53 | the holiday stage and re-indexing leave alone every column other than `date`, `holiday_name` and `is_…` |
| CalendarSource.WeekdayNumber | src/data/sources/CalendarSource.py:35-36 | number mode: `weekday` is dayofweek + 1, between 1 and 7 |
| CalendarSource.WeekdayList | src/data/sources/CalendarSource.py:33-34 | list mode: `weekday` holds the day's name |
| CalendarSource.WeekdayOneHot | src/data/sources/CalendarSource.py:29-32 | column i of `is_monday`…`is_sunday` is 1 exactly on the rows with dayofweek i |
| CalendarSource.WeekdayExactlyOne | src/data/sources/CalendarSource.py:29-32 | on every row exactly one weekday column is 1: the day's own |
| CalendarSource.HolidayStageKept | src/data/sources/CalendarSource.py:40-54 | what the holiday stage writes is what the frame holds |
| CalendarSource.HolidayExists | src/data/sources/CalendarSource.py:44-45 | `is_holiday` is 1 exactly on the rows with a holiday |
| CalendarSource.HolidayList | src/data/sources/CalendarSource.py:50-51 | `holiday_name` holds the name, or the empty string on ordinary days |
| CalendarSource.HolidayOneHot | src/data/sources/CalendarSource.py:46-49 | each holiday present gets its `is_<name>` column marking its rows |
| OpenMeteoSource.Defaults | src/data/sources/OpenMeteoSource.py:57-66 | the defaults are 7 days, `jma_seamless`, the previous-runs URL and no prefix |
| OpenMeteoSource.InvalidFields | src/data/sources/OpenMeteoSource.py:36-49 | `columns` is listed exactly when a column is not an accepted variable, `weather_model` exactly when it is not `jma_seamless`, `prediction_horizon` exactly when outside 1..7 |
| OpenMeteoSource.New | src/data/sources/OpenMeteoSource.py:57-76 | missing columns fail first; then a missing location exactly when place name, latitude and longitude are all absent; then failed geocoding; then validation; a built source holds the validated fields |
| OpenMeteoSource.NewSucceeds | src/data/sources/OpenMeteoSource.py:57-76 | construction succeeds exactly when every check passes |
| OpenMeteoSource.PlaceNameOverrides | src/data/sources/OpenMeteoSource.py:73-74 | a place name replaces the given coordinates with the geocoded ones |
| OpenMeteoSource.CoordinatesKept | src/data/sources/OpenMeteoSource.py:70-76 | without a place name the coordinates are kept verbatim, one of them possibly absent |
| OpenMeteoSource.ColumnsCheckedFirst | src/data/sources/OpenMeteoSource.py:67-72 | with neither columns nor a location the error is the missing columns |
| OpenMeteoSource.HorizonRejected | src/data/sources/OpenMeteoSource.py:49 | a horizon outside 1..7 is always rejected |
| OpenMeteoSource.PreviousDay | src/data/sources/OpenMeteoSource.py:106 | a variable name starts with its column's name |
| OpenMeteoSource.HourlyLength | src/data/sources/OpenMeteoSource.py:106-107 | \|columns\| × horizon variables are requested |
| OpenMeteoSource.HourlyAt | src/data/sources/OpenMeteoSource.py:106-107 | variable c·horizon + i is column c's for day i + 1: columns outside, days inside |
| OpenMeteoSource.HourlyFrom | src/data/sources/OpenMeteoSource.py:106-107 | every requested variable belongs to one of the columns and a day in 1..horizon |
| OpenMeteoSource.ApiParams | src/data/sources/OpenMeteoSource.py:105-114 | coordinates and dates are passed through unchanged, with \|columns\| × horizon hourly variables |
| OpenMeteoSource.ParamsOfConstructed | src/data/sources/OpenMeteoSource.py:49 | a built source requests between one and seven days per column |
| OpenMeteoSource.TemperatureSevenDays | tests/data/sources/test_OpenMeteoSource.py:44-51 | one temperature column over seven days requests `temperature_2m_previous_day1` … `day7` |
| OpenMeteoSource.ResponseColumnsNamed | src/data/sources/OpenMeteoSource.py:126-127 | corrected: every column and day gets a column named after it holding its own variable |
| OpenMeteoSource.AsWrittenMislabels | src/data/sources/OpenMeteoSource.py:126-127 | as written, with two columns and seven days the second column receives the first column's values for two days back |
| OpenMeteoSource.AsWrittenRightForOneDay | src/data/sources/OpenMeteoSource.py:126-127 | as written, the labels are right when one day per column is requested |

## Left out

- Progress bars, console output, `json.dump` of the results, Excel writing (`save_to_sheet`): output only.
- The multiprocessing pool and shared memory: `pool.imap` is modelled as an in-order map that fails at the first failing task, as `imap` re-raises. `getDataFromSharedMemory` is not modelled.
- The environment variables that pin thread counts: no effect on the computed values.
- Time stamps: the dataset's rows carry their hour and are addressed by position. `run` looks `testPeriodStart` and `testPeriodEnd` up in the index; here they are row positions, and a position outside the data is the lookup's failure. `pd.to_datetime` of the index is not modelled.
- The date string of a record (`np.datetime_as_string`) and `float(...)` of its value: formatting.
- Floating point: cells are real numbers. The sklearn fit (mean, standard deviation) is a parameter that returns a positive scale; the library itself uses a scale of 1 for a column with zero deviation. The library's refusal of an empty sample or of zero columns is modelled (`StandardScaler.CanScale`); what it does with a column that is missing on every row is not.
- `NoScaler.py` is not part of this model. The naive model records only that it uses no scaling.
- The model strategies other than the naive one (OLS, Lasso, WLS, MLP): they are callers, and the strategy is a parameter.
- BaseModel.Preprocess: `data[self.target]` raises `KeyError` when the frame has no target column. Here a row's cells form a map, so an absent column reads as missing cells and the leads come out missing.
- BaseModel.Worker: `train[predictors]` and `test[targetColumn]` raise for an unknown column; here such a column reads as missing cells.
- ModelWorker.Worker: `train[context['predictors']]` and `test[context['target']]` raise for an unknown column; here such a column reads as missing cells.
- StandardScaler.StandardScaler.Transform: `train[col]` and `train[[target]]` raise for an unknown column; here such a column reads as missing, has no distinct values and counts as numeric.
- CalendarSource.New: `holidays.country_holidays` raises for an unknown country code; the model takes any code, since the holiday lookup is a per-row input.
- NaiveModel.New: models the settings the naive model forwards. The base model's constructor as shown takes `scalablePredictors` and `otherPredictors`, not `predictors`.
- BaseModel.Worker: as written, the base worker does not map the prediction back through the scaler. The model keeps that; only the stand-alone worker inverts.
- The pandas pivot tables of `CoefsEvaluator.evaluate`, and the `groupby('datetime').first()` and `merge` of `append_metrics_to_df`: library wrappers. The model stops at the long rows and the collected coefficient rows.
- CoefsEvaluator.Evaluate: says which rows are pivoted, not the means the pivot computes.
- numpy arrays as coefficients: coefficients are scalars or lists of scalars.
- Records always carry `hour` and `horizon`, so `item.get` never yields `None` for them.
- MaeEvaluator.AppendMetricsToDf: a non-numeric cell in a prediction or value column gives a missing difference. pandas would raise for strings.
- The calendar libraries: `date_range`, `dayofweek`, `month`, `quarter`, `day_name` and the holiday lookup are per-row inputs. The index name `datetime` set by `fetch` is not modelled.
- `lower()` of holiday names is ASCII-only; other letters are kept as they are.
- Pydantic: only the checks of the modelled fields are modelled (the accepted columns, the weather model, the horizon range). Strict type checks of `url`, `columns_prefix` and of the coordinates are left to the types of the model, and the validation errors are reduced to the list of failing fields.
- `request_geocoding`, `fetch_data_within_date_range` and the response's time axis: network calls. Geocoding is a parameter. A network failure (which exits) and an unknown place (which raises) are both the geocoding failure.
- LagTransformation: the defaults of the constructor (`list` itself passed as the default for `columns` and `lags`) and their pydantic validation are not modelled; the transform takes the fields as given.

## Findings

| source | as written | input that shows it | evidently intended | confidence | as-written member | corrected member |
|---|---|---|---|---|---|---|
| src/data/transformations/LagTransformation.py:30-31 | the name and the shift read `self.type`, a field the class does not declare (it declares `lag_type`), so any call with a column and a lag raises an attribute error | `LagTransformation(columns=["price"], lags=[1], lag_type="day").transform(df)` with a `price` column | read `self.lag_type` | not executed; high | LagTransformation.AsWrittenFails | LagTransformation.TransformLoop |
| src/data/sources/OpenMeteoSource.py:126-127 | the response's variable i is stored under `columns[i]`, but the request asked for `horizon` variables per column, columns outside; only the first \|columns\| variables are read | `columns=["rain", "snowfall"]`, `prediction_horizon=7`: column `snowfall` receives `rain_previous_day2` | one frame column per requested variable, named after it | not executed; medium | OpenMeteoSource.AsWrittenMislabels | OpenMeteoSource.ResponseColumnsNamed |
