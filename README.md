# Water-quality anomaly pipeline: a Dafny model

This project models the logic that the water-quality monitoring repository implements
itself. It covers four parts:

- **Parameter catalog** (`StationConfig`). The five USGS parameter codes and their
  labels, the code list derived from them, the monitoring stations, the service URL and
  the site-search criteria. These are all constants; lemmas state how they relate.
- **USGS client** (`UsgsApi`). The request `get_instantaneous_data` and
  `get_historical_data` would send, including their default date windows. Also
  `find_sites_with_parameters`: the query dictionary it builds and the loop that groups
  the response's time series by site and keeps the sites reporting every requested code.
  No network traffic is modelled. The response is an input value.
- **Formatting pipeline** (`DataProcessing`, `Interpolation`). Three steps:
  - the long-to-wide pivot, with distinct times as rows and distinct codes as columns,
    both ascending, failing on a duplicate (time, code);
  - the relabelling of columns through the catalog;
  - `interpolate(method='linear', limit=1, limit_direction=...)`, applied column by
    column.

  The caller's frame is a `Frame` class, because `interpolate_missing_values`
  overwrites its index in place.
- **Anomaly detector** (`AnomalyDetection`). `WaterQualityAnomalyDetector` is a class
  with the fields `model`, `scaler`, `isFitted` and `featureNames`. Its methods are
  `Fit`, `Predict`, `Save` and `Load`. Each method is tied to a pure state transition
  (`Fitted`, `Predicted`, `SavedRecord`, `AfterLoad`), and lemmas state the lifecycle
  properties of those transitions. The joblib files are an `ArtifactStore`, a map from
  path to stored record.

How the model represents the source:

- **Time.** Timestamps are integers counted in minutes.
- **Date strings.** A date string is a `DateText`. It holds either a bare date (a day
  number) or a date with a time (a minute number).
- **`datetime.now()`.** It is the parameter `now`.
- **`pd.to_datetime`.** It is a parameter `parse: int -> Option<int>`; `None` means the
  key does not parse.
- **Cells.** A cell is `Option<real>`, with `None` for NaN. `real` is exact, so
  interpolated values are exact.
- **scikit-learn.** StandardScaler and IsolationForest are given functions, gathered in
  `Estimators`:
  - `transform` uses the training rows' statistics;
  - `scoreSamples` is the forest's scoring;
  - `offset` is the forest's threshold.

  IsolationForest labels a row -1 exactly when its score is below `offset`. That rule is
  part of the model, and so are the column checks scikit-learn (version 1.2 and later)
  makes on a DataFrame:
  - `fit_transform` records the column names when every label is a string, and records
    the column count;
  - labels that mix strings with NaN raise a TypeError;
  - `transform` raises a ValueError when the table's names differ from the recorded ones
    or its column count differs.

Where the documented intent of the system and the code differ, the model follows the code:

- **Long gaps.** The documented intent is that a run of two or more missing cells stays missing.
  pandas with `limit=1` fills the cell at each end of such a run that touches a present
  cell, and leaves only the interior of the run missing. `Interpolation.FillColumn`
  states this rule: a cell is filled exactly when an allowed neighbour is present.
  `Interpolation.SurroundedGapStaysMissing` is the part of the intended rule that holds.
- **Edge cells.** Past the first or last present cell of a column, a reachable missing
  cell repeats the nearest present value. pandas does this; the documented intent does
  not mention it.
- **Load is not atomic.** The documented intent is that load either succeeds fully or leaves the state
  untouched. The code assigns `model`, `scaler` and `feature_names` one after another, so
  a record missing a later key leaves the earlier assignments in place
  (`AnomalyDetection.LoadIsNotAtomic`).
- **Feature signature.** The documented intent is that predict checks the table's columns
  against the recorded `feature_names`. The code itself never compares with
  `feature_names`. The check that does happen is the scaler's own check of the names and
  count it recorded at fit (`AnomalyDetection.RenamedColumnsRejected`). After a fit on
  NaN labels only, only the column count is recorded: any table with that count whose
  labels are not mixed is accepted (`AnomalyDetection.UnnamedFitChecksOnlyCount`).

## Model

| member | source | states |
|---|---|---|
| StationConfig.KeysOf | src/data/station_config.py:18 | `list(d.keys())`: one key per entry, in insertion order |
| StationConfig.LookupIn | src/data/station_config.py:9-15 | a lookup finds a label exactly when some entry has the code, and the label found is that entry's |
| StationConfig.ParamCodesAreCatalogKeys | src/data/station_config.py:9-18 | `PARAM_CODES` is the catalog's keys in declared order: five codes, pairwise distinct |
| StationConfig.Label | src/data/data_processing.py:29 | the catalog label of a code: present exactly for the catalog's keys, and then that entry's label |
| StationConfig.CatalogLabels | src/data/station_config.py:9-15 | exactly the catalog codes have a label, and no two codes share a label |
| StationConfig.SiteSearchCodesSplitBack | src/data/station_config.py:38-40 | no code contains a comma, and splitting `parameterCd` on ',' gives back `PARAM_CODES` |
| StationConfig.SiteSearchCriteria | src/data/station_config.py:38-43 | the site search asks for JSON, site type 'ST' and status 'active', with exactly four keys |
| StationConfig.StationsAreComplete | src/data/station_config.py:21-32 | two stations, each with exactly the keys `name`, `location` and `state_code` |
| Text.SplitJoin | src/data/station_config.py:40 | joining a non-empty list of comma-free pieces with ',' and splitting on ',' gives back the list |
| Ordering.SortDistinctCorrect | src/data/data_processing.py:26 | the pivot's axis order is strictly increasing and holds exactly the input's elements |
| UsgsApi.FromIsoFormat | src/data/usgs_api.py:58-59 | both date forms parse; a bare date means midnight of that day |
| UsgsApi.StrptimeDate | src/data/usgs_api.py:185 | `'%Y-%m-%d'` parses exactly the bare-date form |
| UsgsApi.ResolveCodes | src/data/usgs_api.py:53-54 | an omitted code list means `PARAM_CODES`; a given one is used as is |
| UsgsApi.InstantaneousRequest | src/data/usgs_api.py:53-75 | the end defaults to now; the start defaults to 24 hours before the end; the site and resolved codes are passed through |
| UsgsApi.HistoricalRequest | src/data/usgs_api.py:178-193 | fails exactly when the start is omitted and the end has a time part; otherwise a given start and a given end are used as parsed, an omitted start is `daysBack` days before the end, and an omitted end is today's midnight, at most a day before now |
| UsgsApi.HistoricalDefaultWindow | src/data/usgs_api.py:152-186 | with every default, the codes are `PARAM_CODES` and the window is 500 days ending at today's midnight |
| UsgsApi.SiteQuery | src/data/usgs_api.py:111-119 | `parameterCd` is the comma join of the codes; `stateCd` is present exactly when the state code is truthy; the other four keys are always present |
| UsgsApi.DefaultQueryIsSiteSearchParams | src/data/usgs_api.py:107-116 | with its defaults the site search sends exactly `SITE_SEARCH_PARAMS` |
| UsgsApi.SeriesOf | src/data/usgs_api.py:129 | a response without `value` or `timeSeries` gives no series; otherwise its `timeSeries` list, as is |
| UsgsApi.SitesInOrder | src/data/usgs_api.py:127-135 | the dict's keys: exactly the sites in the series, each once |
| UsgsApi.SitesWithAll | src/data/usgs_api.py:137-142 | a site is kept exactly when it is a key and its collected codes include every desired code |
| UsgsApi.GroupBySite | src/data/usgs_api.py:127-135 | the loop leaves key order = first-appearance order, and each site's set = every code reported for it |
| UsgsApi.KeepSitesWithAll | src/data/usgs_api.py:138-142 | the comprehension keeps, in key order, the sites whose set includes every desired code |
| UsgsApi.FindSitesWithParameters | src/data/usgs_api.py:107-144 | the request goes to the base URL with the built query, and the result is the filtered sites in first-appearance order |
| UsgsApi.SitesInOrderByFirstAppearance | src/data/usgs_api.py:129-135 | a site listed earlier first appears earlier in the series |
| UsgsApi.FindSitesResult | src/data/usgs_api.py:127-142 | a site is returned exactly when it occurs in the response and reports every requested code; no site is returned twice |
| UsgsApi.SitesWithAllNoRepeats | src/data/usgs_api.py:139-142 | filtering a duplicate-free key list gives a duplicate-free list |
| UsgsApi.SitesWithAllKeepsOrder | src/data/usgs_api.py:139-142 | any two kept sites appear in the key order in the same relative order |
| UsgsApi.FindSitesOrder | src/data/usgs_api.py:129-142 | of two returned sites, the earlier one first appears earlier in the response |
| UsgsApi.EmptyRequestKeepsAllSites | src/data/usgs_api.py:138-141 | an empty request list returns every site seen, in order |
| UsgsApi.MissingSeriesGivesNoSites | src/data/usgs_api.py:129 | a response without `value` or `timeSeries` gives an empty list |
| Interpolation.FillCell | src/data/data_processing.py:50-54 | a present cell is kept, and a missing cell gets a value exactly when a neighbour on an allowed side is present |
| Interpolation.FillColumn | src/data/data_processing.py:50-54 | same length; present cells unchanged; a missing cell is filled exactly when a neighbour on an allowed side is present |
| Interpolation.FillTable | src/data/data_processing.py:50-54 | same rows and width, and every cell is the fill of its own column |
| Interpolation.SingleGapIsMean | src/data/data_processing.py:49-53 | a single missing cell between two present cells becomes their arithmetic mean |
| Interpolation.FillStaysInRange | src/data/data_processing.py:50-54 | a filled value is never below the column's least present value nor above its greatest |
| Interpolation.InteriorFillBetween | src/data/data_processing.py:50-54 | an interpolated value lies between the two present values it is drawn from |
| Interpolation.EdgesRepeatNearestValue | src/data/data_processing.py:50-54 | before the first or after the last present cell, a filled cell repeats its present neighbour |
| Interpolation.SurroundedGapStaysMissing | src/data/data_processing.py:50-54 | with both directions, a missing cell whose neighbours are missing or absent stays missing |
| Interpolation.OneSidedDirections | src/data/data_processing.py:50-54 | 'forward' fills exactly below a present cell, 'backward' exactly above one |
| Interpolation.LimitIsPerCall | src/data/data_processing.py:50-56 | `limit=1` bounds each call: one interpolation leaves the middle of a three-cell gap missing, and a second one fills it with the mean of the first one's values |
| Interpolation.DocumentedExample | src/data/data_processing.py:50-54 | pandas' own `limit=1`, both-directions example comes out as pandas documents it |
| Interpolation.FillTableColumnwise | src/data/data_processing.py:50-56 | each output column depends only on its input column, and present cells are kept |
| DataProcessing.CellValue | src/data/data_processing.py:26 | a cell is missing exactly when no reading has its time and code; otherwise it holds such a reading's value |
| DataProcessing.CellValueOfReading | src/data/data_processing.py:26 | without duplicates, a reading's cell holds that reading's value |
| DataProcessing.Pivot | src/data/data_processing.py:26 | fails exactly on duplicate (time, code) pairs; otherwise one row per index entry, each as wide as the code list |
| DataProcessing.PivotRows | src/data/data_processing.py:26 | cell (i, j) holds the value read at time i for code j |
| DataProcessing.PivotAxes | src/data/data_processing.py:26 | the rows are the distinct times ascending, none twice; the columns are the distinct codes ascending, none twice |
| DataProcessing.PivotPlacesEveryReading | src/data/data_processing.py:26 | every reading is at the row of its time and the column of its code |
| DataProcessing.PivotMissingCells | src/data/data_processing.py:26 | a cell is missing exactly when there is no reading for its time and code |
| DataProcessing.MapLabels | src/data/data_processing.py:29 | each label is replaced by its catalog label, and an unknown code or a NaN label becomes NaN |
| DataProcessing.UncataloguedCodeUnlabelled | src/data/data_processing.py:29 | a code gets a NaN label exactly when it is outside the catalog; there is no error |
| DataProcessing.ParseIndex | src/data/data_processing.py:47 | the index parses exactly when every key parses, and then element by element |
| DataProcessing.NormalizeIndex | src/data/data_processing.py:46-47 | a datetime index is kept; any other is replaced by its parsed form; the columns and cells are untouched; a failure is a parse error |
| DataProcessing.Interpolated | src/data/data_processing.py:50-56 | same index, row order, columns and shape; present cells unchanged; every cell is its column's `FillColumn` in the given direction, so a single gap becomes the mean of its neighbours and at most one cell next to a reading is filled |
| DataProcessing.Format | src/data/data_processing.py:7-34 | a formatted table is well shaped; its columns are the catalog labels of the pivot's codes, and its cells are the pivot's cells interpolated column by column in both directions; the index is a DatetimeIndex with one entry per pivot row, each the pivot's ascending distinct time (parsed when the `time` column is not datetime) |
| DataProcessing.FormatErrors | src/data/data_processing.py:26-30 | formatting fails on duplicates or on an unparsable non-datetime time, and on nothing else |
| DataProcessing.FormatPlacesEveryReading | src/data/data_processing.py:25-34 | no row is dropped, and every reading sits at its time's row, in the column with its code's catalog label |
| DataProcessing.ExampleFill | src/data/data_processing.py:30 | a single missing streamflow between 5 and 7 becomes 6, and a trailing missing temperature repeats 12 |
| DataProcessing.Frame.RelabelColumns | src/data/data_processing.py:29 | only the frame's column labels change, to their catalog labels |
| DataProcessing.InterpolateMissingValues | src/data/data_processing.py:36-56 | on a parse error the frame is unchanged; otherwise the caller's frame gets the parsed index, and a new frame holds the interpolated table |
| DataProcessing.FormatDataForModeling | src/data/data_processing.py:7-34 | returns a new frame holding `Format` of the readings, or `Format`'s error |
| AnomalyDetection.SelectModel | src/models/anomaly_detection.py:20-27 | only "IsolationForest" is accepted, and it gets the given contamination and seed and 100 trees; any other name is `InvalidModel` |
| AnomalyDetection.Initial | src/models/anomaly_detection.py:28-30 | a new detector is unfitted, with no feature names, the chosen model and an unfitted scaler |
| AnomalyDetection.NamesOf | src/models/anomaly_detection.py:40 | the names scikit-learn reads off the columns: all of them when every label is a string, none when there is no string label, a TypeError when string and NaN labels are mixed |
| AnomalyDetection.CheckFeatures | src/models/anomaly_detection.py:64 | mixed labels raise; when both sides carry names and they differ, the check fails with `FeatureNamesMismatch`; otherwise the table passes exactly when it has the fitted column count, and fails with `FeatureCountMismatch` when it does not |
| AnomalyDetection.Fitted | src/models/anomaly_detection.py:40-45 | fails exactly on mixed labels; otherwise fitted, with the columns as feature names, the scaler fitted on the rows with their names and count, the forest on the scaled rows and its parameters unchanged |
| AnomalyDetection.ScaleRows | src/models/anomaly_detection.py:40 | the scaler's transform is applied to each row in order |
| AnomalyDetection.Predicted | src/models/anomaly_detection.py:50-68 | an unfitted detector fails with `PredictBeforeFit`, and a table failing the scaler's column check fails with that error; on success, one score and one label in {-1, 1} per row, where -1 means the score is below the forest's offset, and the scores come from the fitted transform |
| AnomalyDetection.AfterLoad | src/models/anomaly_detection.py:83-91 | a missing file changes nothing; load succeeds exactly when the record has all three keys, and then the fields are the record's with `is_fitted` true; a missing model key changes nothing; a missing scaler key replaces only the model; a missing `feature_names` key replaces the model and the scaler |
| AnomalyDetection.SavedRecord | src/models/anomaly_detection.py:70-79 | saving fails exactly when unfitted; otherwise the record holds the model, the scaler and the feature names |
| AnomalyDetection.UnfittedGuards | src/models/anomaly_detection.py:61-73 | a new detector refuses both predict and save |
| AnomalyDetection.FitEnablesPredict | src/models/anomaly_detection.py:40-68 | after a successful fit, predict succeeds on any table with the training columns, with one label per row |
| AnomalyDetection.RenamedColumnsRejected | src/models/anomaly_detection.py:40-64 | after a fit on string labels, a table with different string labels (renamed, reordered, added or dropped) fails with `FeatureNamesMismatch` |
| AnomalyDetection.MixedLabelsRejected | src/models/anomaly_detection.py:40-64 | string labels mixed with NaN make fit fail, and make a fitted detector's predict fail |
| AnomalyDetection.RefitReplaces | src/models/anomaly_detection.py:40-45 | after a successful fit, a second fit leaves nothing of the first |
| AnomalyDetection.SaveLoadRoundTrip | src/models/anomaly_detection.py:75-91 | loading what save wrote restores model, scaler and feature names, with `is_fitted` true, whatever the loading detector held |
| AnomalyDetection.RestoredPredictsAlike | src/models/anomaly_detection.py:75-91 | the restored detector predicts exactly as the saved one |
| AnomalyDetection.FailedLoadKeepsSignature | src/models/anomaly_detection.py:85-89 | a failed load keeps `is_fitted` and the feature names, and a missing file changes nothing |
| AnomalyDetection.LoadIsNotAtomic | src/models/anomaly_detection.py:83-91 | a record with a model but no scaler, or no feature names, fails after replacing the model (and the scaler, when present); `is_fitted` and the feature names stay as they were |
| AnomalyDetection.UnnamedFitChecksOnlyCount | src/models/anomaly_detection.py:40-64 | after a fit on all-NaN labels, predict succeeds exactly when the table's labels are not mixed and it has the training table's column count |
| AnomalyDetection.ArtifactStore.Dump | src/models/anomaly_detection.py:80 | the record is written at the path, and the other paths are untouched |
| AnomalyDetection.WaterQualityAnomalyDetector.constructor | src/models/anomaly_detection.py:28-30 | a new detector is unfitted, with no feature names and an unfitted scaler |
| AnomalyDetection.WaterQualityAnomalyDetector.Fit | src/models/anomaly_detection.py:32-48 | on mixed labels the error is returned and no field changes; otherwise the fields become the `Fitted` state and the detector itself is returned |
| AnomalyDetection.WaterQualityAnomalyDetector.Predict | src/models/anomaly_detection.py:50-68 | the result is `Predicted` of the current fields, and no field changes |
| AnomalyDetection.WaterQualityAnomalyDetector.Save | src/models/anomaly_detection.py:70-81 | an unfitted detector fails and the store is unchanged; otherwise the record is written at the path |
| AnomalyDetection.WaterQualityAnomalyDetector.Load | src/models/anomaly_detection.py:83-91 | the outcome and the new fields are those of `AfterLoad` on the store, and success returns the detector itself |
| AnomalyDetection.NewDetector | src/models/anomaly_detection.py:13-30 | succeeds exactly for "IsolationForest", returning a new, unfitted detector |
| AnomalyDetection.RoundTripPredictsAlike | src/models/anomaly_detection.py:70-91 | fit, save, then load into a second detector: both predict alike on every table, and both succeed on a table with the training columns when the training labels are not mixed |

## Left out

- Network I/O: `waterdata.get_continuous` and the `requests.get` / `raise_for_status` /
  `json` calls. The model returns the request as a value and takes the parsed response
  as an input. HTTP errors and malformed JSON are therefore not modelled, and neither is
  a time series lacking `sourceInfo` or `variable`.
- Date parsing and formatting (`fromisoformat`, `strftime`, `strptime`, `now`) are
  abstracted:
  - dates are the two well-formed `DateText` forms;
  - a malformed string is not modelled, nor are seconds that `strftime('%H:%M')` would
    truncate;
  - `pd.to_datetime` is an abstract `parse` function.
- scikit-learn's numerics (scaler statistics, forest scoring, the contamination
  threshold) are given functions. The column-name and column-count checks are modelled.
  The library's other input checks are not, such as NaN cells and empty tables.
- AnomalyDetection.SelectModel: the forest's parameters are narrowed. `random_state` is an
  integer, so `None` (a different forest on every fit) cannot be expressed, and a forest
  is a function of its parameters and rows: `RefitReplaces` and `RestoredPredictsAlike`
  rely on that reproducibility. `contamination` is a number, so `'auto'` cannot be
  expressed.
- AnomalyDetection.Fitted: the range check `IsolationForest.fit` makes on `contamination`
  (a value outside (0, 0.5] raises `InvalidParameterError`) is not modelled, so a fit
  succeeds for any contamination.
- WaterQualityAnomalyDetector.Fit: a refit that raises on mixed labels is modelled as
  changing nothing. scikit-learn first clears the previously fitted statistics of the
  scaler object, and that partial reset is not modelled.
- joblib serialization. The store keeps records by value, so it does not model files on
  disk, corrupt files or pickled objects shared by reference.
- The `print` calls, the script at the bottom of data_processing.py that fetches and
  formats at import time, the re-export module src/data/__init__.py, and the network
  script tests/test_api.py.
- The interpolation methods 'forward_fill' and 'bfill', which the docstring names. pandas
  has no method 'forward_fill' and raises on it. Before pandas 3.0 it accepts 'bfill'
  (deprecated since 2.1) only together with `limit_direction='backward'`, and raises with
  the default 'both'. Only 'linear' is modelled.
- Values that are NaN in the long-format input: every reading is a real number.
- No example pivot on literal readings is given. `PivotAxes` and
  `PivotPlacesEveryReading` state those facts for all inputs.
