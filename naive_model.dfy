/**
 * The naive benchmark: its default predictor, the value of the target one
 * week before the forecast day, and its strategy, which answers the first
 * predictor of the test row.
 */
module NaiveModel {
  import opened Wrappers
  import opened Text
  import opened Dataset
  import BaseModel
  import ModelWorker

  /** A predictor given by name, or computed from the task's context. */
  datatype Predictor = Named(name: string) | FromContext(apply: ModelWorker.Context -> string)

  /** The base name of a target, everything before its first `_`. */
  function BaseName(target: string): string {
    BeforeFirst(target, '_')
  }

  /** The default predictor's name for a context: the base series lagged to the same day a week back. */
  function DefaultPredictorName(target: string, horizon: int): string {
    if horizon < 7 then BaseName(target) + "_d-" + IntToString(7 - horizon) else BaseName(target)
  }

  lemma DefaultPredictorNameCases(target: string, horizon: int)
    ensures horizon < 7 ==> DefaultPredictorName(target, horizon) == BaseName(target) + "_d-" + NatToString(7 - horizon)
    ensures horizon >= 7 ==> DefaultPredictorName(target, horizon) == BaseName(target)
    ensures StartsWith(DefaultPredictorName(target, horizon), BaseName(target))
    ensures StartsWith(target, BaseName(target)) && '_' !in BaseName(target)
  {
  }

  /** The scaler the naive model uses. */
  datatype ScalerChoice = NoScaling | Standardising

  datatype Settings = Settings(predictors: seq<Predictor>, name: Option<string>, trainingWindow: int,
                               modelParams: seq<string>, saveToFile: Option<string>, scaler: ScalerChoice)

  /** The naive model's constructor. */
  function New(predictors: seq<Predictor>, name: Option<string>, saveToFile: Option<string>): (s: Settings)
    ensures predictors != [] ==> s.predictors == predictors
    ensures predictors == [] ==>
      |s.predictors| == 1 && s.predictors[0].FromContext? &&
      forall c :: s.predictors[0].apply(c) == DefaultPredictorName(c.target, c.horizon)
    ensures s.trainingWindow == 7 && s.modelParams == [] && s.scaler == NoScaling
    ensures s.name == name && s.saveToFile == saveToFile
  {
    var default := FromContext((c: ModelWorker.Context) => DefaultPredictorName(c.target, c.horizon));
    Settings(if predictors != [] then predictors else [default], name, 7, [], saveToFile, NoScaling)
  }

  /** `one(trainX, trainY, testX, **context)`: the first value of the first test row; fails when there is none. */
  function One(trainX: Matrix, trainY: Matrix, testX: Matrix, context: ModelWorker.Context)
    : (r: Option<BaseModel.ModelOutput>)
    ensures r.Some? <==> |testX| > 0 && |testX[0]| > 0
    ensures r.Some? ==> r.value.prediction == testX[0][0] && r.value.params == []
  {
    if |testX| > 0 && |testX[0]| > 0 then Some(BaseModel.ModelOutput(testX[0][0], [])) else None
  }

  /** The training slice and the context play no part in the prediction. */
  lemma OneIgnoresTrain(trainX: Matrix, trainY: Matrix, trainX': Matrix, trainY': Matrix, testX: Matrix,
                        context: ModelWorker.Context, context': ModelWorker.Context)
    ensures One(trainX, trainY, testX, context) == One(trainX', trainY', testX, context')
  {
  }

  /** A test row whose predictors all hold c is predicted as c. */
  lemma OneConstant(trainX: Matrix, trainY: Matrix, testX: Matrix, context: ModelWorker.Context, c: real)
    requires |testX| > 0 && |testX[0]| > 0
    requires forall j :: 0 <= j < |testX[0]| ==> testX[0][j] == Some(c)
    ensures One(trainX, trainY, testX, context) == Some(BaseModel.ModelOutput(Some(c), []))
  {
  }
}
