/** The anomaly detector of src/models/anomaly_detection.py: a standard scaler and an
    isolation forest behind a fit / predict / save / load lifecycle. The scikit-learn
    numerics are abstract (`Estimators`); joblib is an in-memory path-to-record store. */
module AnomalyDetection {
  import opened Wrappers
  import Interpolation
  import DataProcessing

  type Row = Interpolation.Row

  /** The column names recorded at fit time; `None` is Python's `None`. */
  type FeatureNames = Option<seq<Option<string>>>

  const DEFAULT_CONTAMINATION: real := 0.05
  const DEFAULT_RANDOM_STATE: int := 42
  const N_ESTIMATORS: nat := 100

  datatype ForestParams = ForestParams(contamination: real, randomState: int, nEstimators: nat)

  /** An IsolationForest, known only by its parameters and the (scaled) rows it was fitted on. */
  datatype Forest = IsolationForest(params: ForestParams, fittedOn: Option<seq<Row>>)

  /** A StandardScaler, known by the rows it was fitted on, the column names it recorded
      (`feature_names_in_`, present only when every column name is a string) and the
      number of columns it was fitted on (`n_features_in_`). */
  datatype Scaler = StandardScaler(fittedOn: Option<seq<Row>>, namesIn: Option<seq<string>>, nFeaturesIn: nat)

  /** The scikit-learn computations the detector relies on, as given functions:
      `transform(training, row)` is StandardScaler.transform after fitting on `training`;
      `scoreSamples(params, training, row)` is IsolationForest.score_samples after fitting
      on `training`; `offset(params, training)` is the forest's `offset_`, the threshold
      its `predict` compares scores with. */
  datatype Estimators = Estimators(
    transform: (seq<Row>, Row) -> Row,
    scoreSamples: (ForestParams, seq<Row>, Row) -> real,
    offset: (ForestParams, seq<Row>) -> real)

  datatype DetectorError =
    | InvalidModel          // __init__: "Please provide valid model"
    | PredictBeforeFit      // predict: "Model must be fitted first"
    | SaveBeforeFit         // save: "Cannot save unfitted model"
    | EstimatorNotFitted    // scikit-learn's NotFittedError, for a loaded record holding an unfitted estimator
    | MixedColumnNames      // scikit-learn's TypeError: string and non-string (NaN) column names together
    | FeatureNamesMismatch  // scikit-learn's ValueError: the names differ from those seen at fit
    | FeatureCountMismatch  // scikit-learn's ValueError: the column count differs from the one seen at fit
    | FileNotFound          // joblib.load of a path with no artifact
    | MissingKey(key: string)  // KeyError from model_data[key]

  /** The detector's fields. */
  datatype DetectorState = DetectorState(model: Forest, scaler: Scaler, isFitted: bool, featureNames: FeatureNames)

  /** `__init__`: only "IsolationForest" is a valid model name. */
  function SelectModel(useModel: string, contamination: real, randomState: int): (r: Result<Forest, DetectorError>)
    ensures r.Success? <==> useModel == "IsolationForest"
    ensures r.Failure? ==> r.error == InvalidModel
    ensures r.Success? ==>
      && r.value.fittedOn.None? && r.value.params.nEstimators == 100
      && r.value.params.contamination == contamination && r.value.params.randomState == randomState
  {
    if useModel == "IsolationForest" then Success(IsolationForest(ForestParams(contamination, randomState, N_ESTIMATORS), None))
    else Failure(InvalidModel)
  }

  /** A freshly constructed detector: unfitted, no feature names, an unfitted scaler. */
  function Initial(model: Forest): (s: DetectorState)
    ensures !s.isFitted && s.featureNames.None? && s.model == model
    ensures s.scaler.fittedOn.None? && s.scaler.namesIn.None?
  {
    DetectorState(model, StandardScaler(None, None, 0), false, None)
  }

  predicate AllNamed(columns: seq<Option<string>>)
  {
    forall j :: 0 <= j < |columns| ==> columns[j].Some?
  }

  predicate NoneNamed(columns: seq<Option<string>>)
  {
    forall j :: 0 <= j < |columns| ==> columns[j].None?
  }

  /** The names scikit-learn reads off a table's columns: all of them when every label
      is a string, none when there are no labels or every label is NaN, and a TypeError
      when string and NaN labels are mixed. */
  function NamesOf(columns: seq<Option<string>>): (r: Result<Option<seq<string>>, DetectorError>)
    ensures r.Failure? <==> !AllNamed(columns) && !NoneNamed(columns)
    ensures r.Failure? ==> r.error == MixedColumnNames
    ensures r.Success? ==> (r.value.Some? <==> columns != [] && AllNamed(columns))
    ensures r.Success? && r.value.Some? ==>
      |r.value.value| == |columns| && forall j :: 0 <= j < |columns| ==> columns[j] == Some(r.value.value[j])
  {
    if columns == [] then Success(None)
    else if NoneNamed(columns) then
      assert columns[0].None?;
      Success(None)
    else if AllNamed(columns) then Success(Some(seq(|columns|, j requires 0 <= j < |columns| => columns[j].value)))
    else Failure(MixedColumnNames)
  }

  /** Names read off a table agree with those a scaler recorded when either side has
      none, or both have the same names in the same order. */
  predicate NamesAgree(scaler: Scaler, names: Option<seq<string>>)
  {
    scaler.namesIn.None? || names.None? || names == scaler.namesIn
  }

  /** The input check of StandardScaler.transform: the names must not be mixed; when
      both the fitted scaler and the table carry names they must be equal, in order;
      and the column count must be the one seen at fit. */
  function CheckFeatures(scaler: Scaler, columns: seq<Option<string>>): (r: Outcome<DetectorError>)
    ensures NamesOf(columns).Failure? ==> r == Fail(MixedColumnNames)
    ensures r.Pass? ==> |columns| == scaler.nFeaturesIn
    ensures r.Pass? && scaler.namesIn.Some? && columns != [] && AllNamed(columns) ==>
      NamesOf(columns) == Success(scaler.namesIn)
    ensures NamesOf(columns).Success? && !NamesAgree(scaler, NamesOf(columns).value) ==> r == Fail(FeatureNamesMismatch)
    ensures NamesOf(columns).Success? && NamesAgree(scaler, NamesOf(columns).value) ==>
      (r.Pass? <==> |columns| == scaler.nFeaturesIn)
    ensures NamesOf(columns).Success? && NamesAgree(scaler, NamesOf(columns).value) && |columns| != scaler.nFeaturesIn ==>
      r == Fail(FeatureCountMismatch)
  {
    match NamesOf(columns)
    case Failure(e) => Fail(e)
    case Success(names) =>
      if scaler.namesIn.Some? && names.Some? && names.value != scaler.namesIn.value then Fail(FeatureNamesMismatch)
      else if |columns| != scaler.nFeaturesIn then Fail(FeatureCountMismatch)
      else Pass
  }

  function ScaleRows(est: Estimators, training: seq<Row>, rows: seq<Row>): (scaled: seq<Row>)
    ensures |scaled| == |rows| && forall k :: 0 <= k < |rows| ==> scaled[k] == est.transform(training, rows[k])
  {
    seq(|rows|, k requires 0 <= k < |rows| => est.transform(training, rows[k]))
  }

  /** `fit(df)`: the scaler is fitted on `df` (recording its names and column count), the
      forest on the scaled rows, and the column labels become the feature signature.
      Mixed string and NaN labels make `fit_transform` raise before any field changes. */
  function Fitted(est: Estimators, s: DetectorState, df: DataProcessing.Table): (r: Result<DetectorState, DetectorError>)
    ensures r.Failure? <==> NamesOf(df.columns).Failure?
    ensures r.Failure? ==> r.error == MixedColumnNames
    ensures r.Success? ==>
      && r.value.isFitted && r.value.featureNames == Some(df.columns)
      && r.value.model.params == s.model.params
      && r.value.scaler.fittedOn == Some(df.rows) && r.value.scaler.nFeaturesIn == |df.columns|
      && r.value.scaler.namesIn == NamesOf(df.columns).value
      && r.value.model.fittedOn == Some(ScaleRows(est, df.rows, df.rows))
  {
    match NamesOf(df.columns)
    case Failure(e) => Failure(e)
    case Success(names) =>
      Success(DetectorState(
        s.model.(fittedOn := Some(ScaleRows(est, df.rows, df.rows))),
        StandardScaler(Some(df.rows), names, |df.columns|),
        true,
        Some(df.columns)))
  }

  /** One label per row (-1 anomalous, 1 normal) and one score per row (lower is more anomalous). */
  datatype Prediction = Prediction(labels: seq<int>, scores: seq<real>)

  /** `predict(df)`: the fitted scaler's transform (no refit), which first checks the
      table's columns against those seen at fit, then the forest's scores; a row is
      anomalous exactly when its score is below the forest's offset. */
  function Predicted(est: Estimators, s: DetectorState, df: DataProcessing.Table): (r: Result<Prediction, DetectorError>)
    ensures !s.isFitted ==> r == Failure(PredictBeforeFit)
    ensures r.Success? <==>
      s.isFitted && s.scaler.fittedOn.Some? && CheckFeatures(s.scaler, df.columns).Pass? && s.model.fittedOn.Some?
    ensures s.isFitted && s.scaler.fittedOn.Some? && CheckFeatures(s.scaler, df.columns).Fail? ==>
      r == Failure(CheckFeatures(s.scaler, df.columns).error)
    ensures r.Success? ==>
      var threshold := est.offset(s.model.params, s.model.fittedOn.value);
      && |r.value.labels| == |df.rows| && |r.value.scores| == |df.rows|
      && forall k :: 0 <= k < |df.rows| ==>
           && r.value.scores[k] == est.scoreSamples(s.model.params, s.model.fittedOn.value,
                                                    est.transform(s.scaler.fittedOn.value, df.rows[k]))
           && (r.value.labels[k] == -1 || r.value.labels[k] == 1)
           && (r.value.labels[k] == -1 <==> r.value.scores[k] < threshold)
  {
    if !s.isFitted then Failure(PredictBeforeFit)
    else if s.scaler.fittedOn.None? then Failure(EstimatorNotFitted)
    else match CheckFeatures(s.scaler, df.columns)
      case Fail(e) => Failure(e)
      case Pass =>
        if s.model.fittedOn.None? then Failure(EstimatorNotFitted)
        else
          var scaled := ScaleRows(est, s.scaler.fittedOn.value, df.rows);
          var threshold := est.offset(s.model.params, s.model.fittedOn.value);
          var scores := seq(|scaled|, k requires 0 <= k < |scaled| => est.scoreSamples(s.model.params, s.model.fittedOn.value, scaled[k]));
          var labels := seq(|scaled|, k requires 0 <= k < |scaled| => if scores[k] - threshold < 0.0 then -1 else 1);
          Success(Prediction(labels, scores))
  }

  /** The dictionary joblib stores; a key that is absent is `None`. */
  datatype Artifact = Artifact(model: Option<Forest>, scaler: Option<Scaler>, featureNames: Option<FeatureNames>)

  /** `save`: the record written, or the error raised before anything is written. */
  function SavedRecord(s: DetectorState): (r: Result<Artifact, DetectorError>)
    ensures r.Failure? <==> !s.isFitted
    ensures r.Failure? ==> r.error == SaveBeforeFit
    ensures r.Success? ==>
      && r.value.model == Some(s.model) && r.value.scaler == Some(s.scaler)
      && r.value.featureNames == Some(s.featureNames)
  {
    if !s.isFitted then Failure(SaveBeforeFit)
    else Success(Artifact(Some(s.model), Some(s.scaler), Some(s.featureNames)))
  }

  /** `load`: the outcome and the fields afterwards. The fields are assigned one by one,
      so a record that lacks a later key leaves the earlier assignments in place. */
  function AfterLoad(s: DetectorState, files: map<string, Artifact>, path: string): (r: (Outcome<DetectorError>, DetectorState))
    ensures path !in files ==> r == (Fail(FileNotFound), s)
    ensures r.0.Pass? <==>
      path in files && files[path].model.Some? && files[path].scaler.Some? && files[path].featureNames.Some?
    ensures r.0.Pass? ==>
      r.1 == DetectorState(files[path].model.value, files[path].scaler.value, true, files[path].featureNames.value)
    ensures path in files && files[path].model.None? ==> r == (Fail(MissingKey("model")), s)
    ensures path in files && files[path].model.Some? && files[path].scaler.None? ==>
      r == (Fail(MissingKey("scaler")), s.(model := files[path].model.value))
    ensures path in files && files[path].model.Some? && files[path].scaler.Some? && files[path].featureNames.None? ==>
      r == (Fail(MissingKey("feature_names")), s.(model := files[path].model.value, scaler := files[path].scaler.value))
  {
    if path !in files then (Fail(FileNotFound), s)
    else
      var a := files[path];
      if a.model.None? then (Fail(MissingKey("model")), s)
      else
        var s1 := s.(model := a.model.value);
        if a.scaler.None? then (Fail(MissingKey("scaler")), s1)
        else
          var s2 := s1.(scaler := a.scaler.value);
          if a.featureNames.None? then (Fail(MissingKey("feature_names")), s2)
          else (Pass, s2.(featureNames := a.featureNames.value, isFitted := true))
  }

  // ----- lifecycle properties -----

  /** A new detector refuses to predict and to save. */
  lemma UnfittedGuards(est: Estimators, model: Forest, df: DataProcessing.Table)
    ensures Predicted(est, Initial(model), df) == Failure(PredictBeforeFit)
    ensures SavedRecord(Initial(model)) == Failure(SaveBeforeFit)
  {
  }

  /** After a fit, the detector predicts on any table with the training table's columns,
      one label and one score per row. */
  lemma FitEnablesPredict(est: Estimators, s: DetectorState, df: DataProcessing.Table, other: DataProcessing.Table)
    ensures Fitted(est, s, df).Success? && other.columns == df.columns ==>
      && Predicted(est, Fitted(est, s, df).value, other).Success?
      && |Predicted(est, Fitted(est, s, df).value, other).value.labels| == |other.rows|
  {
  }

  /** After a fit on string column names, a table whose string names differ (renamed,
      reordered, added or dropped) is rejected at the scaler. */
  lemma RenamedColumnsRejected(est: Estimators, s: DetectorState, df: DataProcessing.Table, other: DataProcessing.Table)
    requires df.columns != [] && AllNamed(df.columns)
    requires other.columns != [] && AllNamed(other.columns) && other.columns != df.columns
    ensures Fitted(est, s, df).Success?
    ensures Predicted(est, Fitted(est, s, df).value, other) == Failure(FeatureNamesMismatch)
  {
  }

  /** Labels that mix strings with NaN (an uncatalogued code) make `fit` raise, and the
      same labels make a fitted detector's `predict` raise. */
  lemma MixedLabelsRejected(est: Estimators, s: DetectorState, df: DataProcessing.Table, j: nat, k: nat)
    requires j < |df.columns| && k < |df.columns| && df.columns[j].Some? && df.columns[k].None?
    ensures Fitted(est, s, df) == Failure(MixedColumnNames)
    ensures s.isFitted && s.scaler.fittedOn.Some? ==> Predicted(est, s, df) == Failure(MixedColumnNames)
  {
  }

  /** A later fit replaces everything the earlier one recorded. */
  lemma RefitReplaces(est: Estimators, s: DetectorState, first: DataProcessing.Table, second: DataProcessing.Table)
    ensures Fitted(est, s, first).Success? ==>
      Fitted(est, Fitted(est, s, first).value, second) == Fitted(est, s, second)
  {
  }

  /** What `save` writes, `load` restores in full, whatever the loading detector held. */
  lemma SaveLoadRoundTrip(s: DetectorState, t: DetectorState, files: map<string, Artifact>, path: string)
    requires SavedRecord(s).Success?
    ensures AfterLoad(t, files[path := SavedRecord(s).value], path) == (Pass, s)
  {
  }

  /** A restored detector predicts exactly as the one that was saved. */
  lemma RestoredPredictsAlike(est: Estimators, s: DetectorState, t: DetectorState, files: map<string, Artifact>,
                              path: string, df: DataProcessing.Table)
    requires SavedRecord(s).Success?
    ensures Predicted(est, AfterLoad(t, files[path := SavedRecord(s).value], path).1, df) == Predicted(est, s, df)
  {
    SaveLoadRoundTrip(s, t, files, path);
  }

  /** A load that fails leaves `is_fitted` and the feature names as they were; a missing
      file changes nothing at all. */
  lemma FailedLoadKeepsSignature(s: DetectorState, files: map<string, Artifact>, path: string)
    requires AfterLoad(s, files, path).0.Fail?
    ensures AfterLoad(s, files, path).1.isFitted == s.isFitted
    ensures AfterLoad(s, files, path).1.featureNames == s.featureNames
    ensures path !in files ==> AfterLoad(s, files, path).1 == s
  {
  }

  /** The fields are assigned one after another: a record with a model but no scaler
      replaces the model, and one with both but no feature names replaces both, before
      the load fails; `is_fitted` and the feature names stay as they were. */
  lemma LoadIsNotAtomic(s: DetectorState, files: map<string, Artifact>, path: string)
    requires path in files && files[path].model.Some? && (files[path].scaler.None? || files[path].featureNames.None?)
    ensures AfterLoad(s, files, path).0.Fail?
    ensures AfterLoad(s, files, path).1.model == files[path].model.value
    ensures files[path].scaler.Some? ==> AfterLoad(s, files, path).1.scaler == files[path].scaler.value
    ensures files[path].scaler.None? ==> AfterLoad(s, files, path).1.scaler == s.scaler
    ensures AfterLoad(s, files, path).1.isFitted == s.isFitted && AfterLoad(s, files, path).1.featureNames == s.featureNames
  {
  }

  /** After a fit on a table whose labels are all NaN, the scaler has recorded only the
      column count: a table is accepted exactly when its labels are not mixed and it has
      that many columns, whatever its names. */
  lemma UnnamedFitChecksOnlyCount(est: Estimators, s: DetectorState, df: DataProcessing.Table, other: DataProcessing.Table)
    requires NoneNamed(df.columns)
    ensures Fitted(est, s, df).Success?
    ensures Predicted(est, Fitted(est, s, df).value, other).Success? <==>
      NamesOf(other.columns).Success? && |other.columns| == |df.columns|
  {
  }

  // ----- the objects -----

  /** The joblib files: a map from path to stored record. */
  class ArtifactStore {
    var files: map<string, Artifact>

    constructor ()
      ensures files == map[]
    {
      files := map[];
    }

    /** `joblib.dump(record, path)` */
    method Dump(record: Artifact, path: string)
      modifies this
      ensures files == old(files)[path := record]
    {
      files := files[path := record];
    }
  }

  class WaterQualityAnomalyDetector {
    var model: Forest
    var scaler: Scaler
    var isFitted: bool
    var featureNames: FeatureNames

    function State(): DetectorState
      reads this
    {
      DetectorState(model, scaler, isFitted, featureNames)
    }

    /** The body of `__init__` once the model name was accepted. */
    constructor (model: Forest)
      ensures State() == Initial(model)
    {
      this.model := model;
      scaler := StandardScaler(None, None, 0);
      isFitted := false;
      featureNames := None;
    }

    /** `fit(df)`, which returns the detector itself, or raises with every field unchanged. */
    method Fit(est: Estimators, df: DataProcessing.Table) returns (r: Result<WaterQualityAnomalyDetector, DetectorError>)
      modifies this
      ensures Fitted(est, old(State()), df).Failure? ==>
        r == Failure(Fitted(est, old(State()), df).error) && State() == old(State())
      ensures Fitted(est, old(State()), df).Success? ==>
        r == Success(this) && State() == Fitted(est, old(State()), df).value
    {
      var names := NamesOf(df.columns);
      if names.Failure? {
        return Failure(names.error);
      }
      scaler := StandardScaler(Some(df.rows), names.value, |df.columns|);
      var scaled := ScaleRows(est, df.rows, df.rows);
      model := model.(fittedOn := Some(scaled));
      featureNames := Some(df.columns);
      isFitted := true;
      r := Success(this);
    }

    /** `predict(df)`; it changes no field. */
    method Predict(est: Estimators, df: DataProcessing.Table) returns (r: Result<Prediction, DetectorError>)
      ensures r == Predicted(est, State(), df)
    {
      r := Predicted(est, State(), df);
    }

    /** `save(filepath)`: nothing is written for an unfitted detector. */
    method Save(store: ArtifactStore, path: string) returns (r: Outcome<DetectorError>)
      modifies store
      ensures !isFitted ==> r == Fail(SaveBeforeFit) && store.files == old(store.files)
      ensures isFitted ==> r == Pass && store.files == old(store.files)[path := SavedRecord(State()).value]
    {
      if !isFitted {
        return Fail(SaveBeforeFit);
      }
      store.Dump(Artifact(Some(model), Some(scaler), Some(featureNames)), path);
      r := Pass;
    }

    /** `load(filepath)`, which returns the detector itself. */
    method Load(store: ArtifactStore, path: string) returns (r: Result<WaterQualityAnomalyDetector, DetectorError>)
      modifies this
      ensures (if r.Success? then Pass else Fail(r.error), State()) == AfterLoad(old(State()), store.files, path)
      ensures r.Success? ==> r.value == this
    {
      if path !in store.files {
        return Failure(FileNotFound);
      }
      var record := store.files[path];
      if record.model.None? {
        return Failure(MissingKey("model"));
      }
      model := record.model.value;
      if record.scaler.None? {
        return Failure(MissingKey("scaler"));
      }
      scaler := record.scaler.value;
      if record.featureNames.None? {
        return Failure(MissingKey("feature_names"));
      }
      featureNames := record.featureNames.value;
      isFitted := true;
      r := Success(this);
    }
  }

  /** `WaterQualityAnomalyDetector(contamination, random_state, use_model)` */
  method NewDetector(contamination: real, randomState: int, useModel: string)
    returns (r: Result<WaterQualityAnomalyDetector, DetectorError>)
    ensures r.Success? <==> useModel == "IsolationForest"
    ensures r.Failure? ==> r.error == InvalidModel
    ensures r.Success? ==> fresh(r.value) && r.value.State() == Initial(SelectModel(useModel, contamination, randomState).value)
  {
    var model := SelectModel(useModel, contamination, randomState);
    if model.Failure? {
      return Failure(model.error);
    }
    var detector := new WaterQualityAnomalyDetector(model.value);
    r := Success(detector);
  }

  /** Fit, save, and load into a second detector: both then predict alike on any table,
      and both succeed on a table with the training columns. (When the fit raises,
      nothing is saved, and both refuse to predict.) */
  method RoundTripPredictsAlike(est: Estimators, training: DataProcessing.Table, heldOut: DataProcessing.Table, path: string)
    returns (original: Result<Prediction, DetectorError>, restored: Result<Prediction, DetectorError>)
    ensures original == restored
    ensures NamesOf(training.columns).Success? && heldOut.columns == training.columns ==> original.Success?
  {
    var first := new WaterQualityAnomalyDetector(IsolationForest(ForestParams(DEFAULT_CONTAMINATION, DEFAULT_RANDOM_STATE, N_ESTIMATORS), None));
    var fitted := first.Fit(est, training);
    var store := new ArtifactStore();
    var saved := first.Save(store, path);
    var second := new WaterQualityAnomalyDetector(IsolationForest(ForestParams(DEFAULT_CONTAMINATION, DEFAULT_RANDOM_STATE, N_ESTIMATORS), None));
    ghost var blank, written := second.State(), store.files;
    var loaded := second.Load(store, path);
    if first.isFitted {
      SaveLoadRoundTrip(first.State(), blank, written, path);
    }
    original := first.Predict(est, heldOut);
    restored := second.Predict(est, heldOut);
  }
}
