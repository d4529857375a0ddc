/**
 * The stand-alone worker: the same train/test extraction written as a
 * boolean mask with the training window passed explicitly, and the record a
 * worker builds from a context, with the prediction mapped back through the
 * scaler's inverse.
 */
module ModelWorker {
  import opened Wrappers
  import opened Dataset
  import StandardScaler
  import BaseModel

  /** The fields every task's context carries; all of them are copied into its record. */
  datatype Context = Context(hour: int, dayInTestingPeriod: int, datasetOffset: int, horizon: nat,
                             trainingWindow: int, target: string, predictors: seq<string>)

  /** The boolean mask of the filter, one entry per row. */
  function Mask(data: seq<Row>, hour: int, dayInTestingPeriod: int, datasetOffset: int, horizon: nat,
                trainingWindow: int): (m: seq<bool>)
    ensures |m| == |data|
    ensures forall i :: 0 <= i < |data| ==>
      (m[i] <==> data[i].hour == hour &&
                 data[i].day >= datasetOffset - trainingWindow - horizon + dayInTestingPeriod &&
                 data[i].day < datasetOffset + dayInTestingPeriod + 1)
  {
    seq(|data|, i requires 0 <= i < |data| =>
      data[i].hour == hour &&
      data[i].day >= datasetOffset - trainingWindow - horizon + dayInTestingPeriod &&
      data[i].day < datasetOffset + dayInTestingPeriod + 1)
  }

  /** `data[mask]`: the rows whose mask entry is true, in order. */
  function Select(data: seq<Row>, mask: seq<bool>): seq<Row>
    requires |mask| == |data|
  {
    if data == [] then []
    else Select(data[..|data| - 1], mask[..|mask| - 1]) + (if mask[|mask| - 1] then [data[|data| - 1]] else [])
  }

  /** pandas `head(n)`: the first n rows for n >= 0, all but the last -n rows for n < 0. */
  function Head(s: seq<Row>, n: int): (r: seq<Row>)
    ensures n >= 0 ==> |r| == (if n <= |s| then n else |s|)
    ensures n < 0 ==> |r| == (if |s| + n <= 0 then 0 else |s| + n)
    ensures r == s[..|r|]
  {
    if n >= 0 then (if n <= |s| then s[..n] else s)
    else (if |s| + n <= 0 then [] else s[..|s| + n])
  }

  /** pandas `tail(n)` for n >= 0: the last n rows, or all of them. */
  function Tail(s: seq<Row>, n: nat): (r: seq<Row>)
    ensures |r| == (if n <= |s| then n else |s|)
    ensures r == s[|s| - |r|..]
  {
    if n <= |s| then s[|s| - n..] else s
  }

  function Filtered(data: seq<Row>, hour: int, dayInTestingPeriod: int, datasetOffset: int, horizon: nat,
                    trainingWindow: int): seq<Row>
  {
    Select(data, Mask(data, hour, dayInTestingPeriod, datasetOffset, horizon, trainingWindow))
  }

  function ExtractTrainAndTest(data: seq<Row>, hour: int, dayInTestingPeriod: int, datasetOffset: int,
                               horizon: nat, trainingWindow: int): BaseModel.Slices
  {
    var f := Filtered(data, hour, dayInTestingPeriod, datasetOffset, horizon, trainingWindow);
    BaseModel.Slices(Tail(f, 1), Head(f, -1 - horizon))
  }

  lemma {:induction false} SelectIsFilter(data: seq<Row>, hour: int, dayInTestingPeriod: int, datasetOffset: int,
                                          horizon: nat, trainingWindow: int)
    ensures Filtered(data, hour, dayInTestingPeriod, datasetOffset, horizon, trainingWindow)
         == BaseModel.Filter(data, hour,
              BaseModel.WindowStart(datasetOffset, trainingWindow, horizon, dayInTestingPeriod),
              BaseModel.WindowEnd(datasetOffset, dayInTestingPeriod))
  {
    if data != [] {
      var init := data[..|data| - 1];
      var m := Mask(data, hour, dayInTestingPeriod, datasetOffset, horizon, trainingWindow);
      assert m[..|m| - 1] == Mask(init, hour, dayInTestingPeriod, datasetOffset, horizon, trainingWindow);
      SelectIsFilter(init, hour, dayInTestingPeriod, datasetOffset, horizon, trainingWindow);
    }
  }

  /** With the same training window, the mask-based extraction gives the base class's slices. */
  lemma SameSlicesAsBaseModel(data: seq<Row>, hour: int, dayInTestingPeriod: int, datasetOffset: int,
                              horizon: nat, trainingWindow: int)
    ensures ExtractTrainAndTest(data, hour, dayInTestingPeriod, datasetOffset, horizon, trainingWindow)
         == BaseModel.ExtractTrainAndTest(trainingWindow, data, hour, dayInTestingPeriod, datasetOffset, horizon)
  {
    SelectIsFilter(data, hour, dayInTestingPeriod, datasetOffset, horizon, trainingWindow);
  }

  /** The filter keeps exactly the rows of the hour whose day lies in the window, in dataset order. */
  lemma FilterKeepsExactly(data: seq<Row>, hour: int, dayInTestingPeriod: int, datasetOffset: int,
                           horizon: nat, trainingWindow: int)
    ensures var f := Filtered(data, hour, dayInTestingPeriod, datasetOffset, horizon, trainingWindow);
      var lo, hi := datasetOffset - trainingWindow - horizon + dayInTestingPeriod, datasetOffset + dayInTestingPeriod + 1;
      var ks := BaseModel.Kept(data, hour, lo, hi);
      && |f| == |ks|
      && (forall k :: 0 <= k < |ks| ==> ks[k] < |data| && f[k] == data[ks[k]])
      && (forall k, l :: 0 <= k < l < |ks| ==> ks[k] < ks[l])
      && (forall i :: 0 <= i < |data| ==> (i in ks <==> data[i].hour == hour && lo <= data[i].day < hi))
  {
    var lo, hi := datasetOffset - trainingWindow - horizon + dayInTestingPeriod, datasetOffset + dayInTestingPeriod + 1;
    SelectIsFilter(data, hour, dayInTestingPeriod, datasetOffset, horizon, trainingWindow);
    BaseModel.FilterKept(data, hour, lo, hi);
  }

  /**
   * Test is at most one row, the last filtered one; train is the filtered rows
   * without the trailing 1 + horizon, empty when there are no more than that.
   */
  lemma ExtractShape(data: seq<Row>, hour: int, dayInTestingPeriod: int, datasetOffset: int,
                     horizon: nat, trainingWindow: int)
    ensures var f := Filtered(data, hour, dayInTestingPeriod, datasetOffset, horizon, trainingWindow);
      var s := ExtractTrainAndTest(data, hour, dayInTestingPeriod, datasetOffset, horizon, trainingWindow);
      && |s.test| <= 1
      && (|s.test| == 0 <==> |f| == 0)
      && (|s.test| == 1 ==> s.test[0] == f[|f| - 1])
      && |s.train| == (if |f| <= 1 + horizon then 0 else |f| - 1 - horizon)
      && s.train == f[..|s.train|]
  {
  }

  /** No lookahead: with strictly increasing filtered days, train ends 1 + horizon days before test. */
  lemma NoLookahead(data: seq<Row>, hour: int, dayInTestingPeriod: int, datasetOffset: int,
                    horizon: nat, trainingWindow: int)
    requires var f := Filtered(data, hour, dayInTestingPeriod, datasetOffset, horizon, trainingWindow);
      forall a, b :: 0 <= a < b < |f| ==> f[a].day < f[b].day
    ensures var s := ExtractTrainAndTest(data, hour, dayInTestingPeriod, datasetOffset, horizon, trainingWindow);
      forall k :: 0 <= k < |s.train| ==> s.train[k].day <= s.test[0].day - (1 + horizon)
  {
    SelectIsFilter(data, hour, dayInTestingPeriod, datasetOffset, horizon, trainingWindow);
    SameSlicesAsBaseModel(data, hour, dayInTestingPeriod, datasetOffset, horizon, trainingWindow);
    BaseModel.NoLookahead(trainingWindow, data, hour, dayInTestingPeriod, datasetOffset, horizon);
  }

  // ---------------------------------------------------------------------
  // The record

  /** `model(trainX, trainY, testX, **context)`; `None` when it raises. */
  type Model = (Matrix, Matrix, Matrix, Context) -> Option<BaseModel.ModelOutput>

  datatype Record = Record(context: Context, prediction: Option<real>, value: Option<real>,
                           testX: seq<Option<real>>, coefs: seq<real>)

  function Slices(context: Context, data: seq<Row>): BaseModel.Slices {
    ExtractTrainAndTest(data, context.hour, context.dayInTestingPeriod, context.datasetOffset,
                        context.horizon, context.trainingWindow)
  }

  /** The fit the scaler keeps for the target: that of the train slice's target values. */
  function TargetFit(context: Context, data: seq<Row>, fit: StandardScaler.Fitter): StandardScaler.Standardizer {
    fit(ColumnValues(Slices(context, data).train, context.target))
  }

  /** `scaler.inverse`, with a missing prediction staying missing. */
  function InverseCell(s: StandardScaler.Standardizer, p: Option<real>): Option<real> {
    if p.Some? then Some(StandardScaler.Unapply(s, p.value)) else None
  }

  /** The library can fit and apply the scaler to the context's slices. */
  predicate CanScale(context: Context, data: seq<Row>) {
    var sl := Slices(context, data);
    StandardScaler.CanScale(sl.train, sl.test, context.predictors, context.target)
  }

  /** The context's slices after `scaler.transform`. */
  function ScaledSlices(context: Context, data: seq<Row>, fit: StandardScaler.Fitter): StandardScaler.Scaled {
    var sl := Slices(context, data);
    StandardScaler.Standardised(sl.train, sl.test, context.predictors, context.target, fit)
  }

  /** What the model answers on `trainX`, `trainY` and `testX` of the standardised slices. */
  function ModelAnswer(context: Context, data: seq<Row>, model: Model, fit: StandardScaler.Fitter)
    : Option<BaseModel.ModelOutput>
  {
    var s := ScaledSlices(context, data, fit);
    model(Project(s.train, context.predictors), Project(s.train, [context.target]),
          Project(s.test, context.predictors), context)
  }

  /**
   * The test row's value of a predictor after scaling: standardised with
   * train's fit for a numeric column, as it was otherwise.
   */
  function ScaledTestCell(context: Context, data: seq<Row>, fit: StandardScaler.Fitter, c: string): Option<real>
    requires |Slices(context, data).test| > 0
  {
    var sl := Slices(context, data);
    if c in StandardScaler.NumericColumns(sl.train, context.predictors, context.target)
    then StandardScaler.ApplyCell(fit(ColumnValues(sl.train, c)), Cell(sl.test[0].cols, c))
    else Cell(sl.test[0].cols, c)
  }

  /**
   * `worker(args)` after the frame is read from shared memory: extract,
   * standardise, predict, map the prediction back to the target's units and
   * record it with the context, the test row's target, its scaled predictors
   * and the model's coefficients.  The scaler raises on an empty slice or
   * when no predictor is numeric; the model may raise too.
   */
  function Worker(context: Context, data: seq<Row>, model: Model, fit: StandardScaler.Fitter)
    : (r: Result<Record, BaseModel.WorkerError>)
    ensures !CanScale(context, data) ==> r == Err(BaseModel.ScalingFailed)
    ensures r.Ok? <==> CanScale(context, data) && ModelAnswer(context, data, model, fit).Some?
    ensures r.Ok? ==>
      && r.value.context == context
      && r.value.value == Cell(Slices(context, data).test[0].cols, context.target)
      && r.value.prediction
         == InverseCell(TargetFit(context, data, fit), ModelAnswer(context, data, model, fit).value.prediction)
      && r.value.coefs == ModelAnswer(context, data, model, fit).value.params
      && |r.value.testX| == |context.predictors|
      && forall j :: 0 <= j < |context.predictors| ==>
           r.value.testX[j] == ScaledTestCell(context, data, fit, context.predictors[j])
  {
    var sl := Slices(context, data);
    if !CanScale(context, data) then Err(BaseModel.ScalingFailed)
    else
      var out := ModelAnswer(context, data, model, fit);
      if out.None? then Err(BaseModel.ModelFailed)
      else
        StandardScaler.StandardisedCells(sl.train, sl.test, context.predictors, context.target, fit);
        var s := ScaledSlices(context, data, fit);
        var testX := Project(s.test, context.predictors);
        Ok(Record(context, InverseCell(s.targetFit, out.value.prediction),
                  Cell(s.test[0].cols, context.target), testX[0], out.value.params))
  }

  /**
   * The inverse undoes the standardisation: a model answering the
   * standardised value of y gets y recorded as its prediction.
   */
  lemma PredictionIsInverted(context: Context, data: seq<Row>, fit: StandardScaler.Fitter, y: real)
    requires CanScale(context, data)
    ensures var z := StandardScaler.Apply(TargetFit(context, data, fit), y);
      var model: Model := (trainX, trainY, testX, ctx) => Some(BaseModel.ModelOutput(Some(z), []));
      var r := Worker(context, data, model, fit);
      r.Ok? && r.value.prediction == Some(y)
  {
    StandardScaler.RoundTrip(TargetFit(context, data, fit), y);
  }
}
