/**
 * The mean-absolute-error evaluator: overall, per horizon and per hour and
 * horizon over the records of one model, and the per-row absolute errors
 * it appends to the side-by-side details frame.
 */
module MaeEvaluator {
  import opened Wrappers
  import opened Text
  import opened OrderedDict
  import opened Frame
  import BaseEvaluator

  /** The part of a record the evaluator reads; a record without a prediction key has `None`. */
  datatype Item = Item(prediction: Option<real>, value: real, horizon: int, hour: int)

  function Abs(x: real): real {
    if x < 0.0 then -x else x
  }

  function Sum(xs: seq<real>): real {
    if xs == [] then 0.0 else Sum(xs[..|xs| - 1]) + xs[|xs| - 1]
  }

  /** `_calculate_mae`: the mean of the errors, 0 for none. */
  function CalculateMae(errors: seq<real>): (m: real)
    ensures errors == [] ==> m == 0.0
    ensures errors != [] ==> m * (|errors| as real) == Sum(errors)
  {
    if errors == [] then 0.0 else Sum(errors) / (|errors| as real)
  }

  predicate NonNegative(xs: seq<real>) {
    forall i :: 0 <= i < |xs| ==> xs[i] >= 0.0
  }

  lemma {:induction false} SumNonNegative(xs: seq<real>)
    requires NonNegative(xs)
    ensures Sum(xs) >= 0.0
  {
    if xs != [] {
      SumNonNegative(xs[..|xs| - 1]);
    }
  }

  /** The mean of absolute errors is never negative. */
  lemma MaeNonNegative(errors: seq<real>)
    requires NonNegative(errors)
    ensures CalculateMae(errors) >= 0.0
  {
    SumNonNegative(errors);
  }

  /** The absolute error of an item that has a prediction. */
  function ErrorOf(x: Item): real {
    if x.prediction.Some? then Abs(x.prediction.value - x.value) else 0.0
  }

  /** The errors of the items that have a prediction, in item order. */
  function PresentErrors(data: seq<Item>): (e: seq<real>)
    ensures NonNegative(e)
  {
    if data == [] then []
    else
      var last := data[|data| - 1];
      PresentErrors(data[..|data| - 1]) + (if last.prediction.Some? then [ErrorOf(last)] else [])
  }

  /**
   * `_evaluate_all`: the mean absolute error over the items that carry a
   * prediction (see `EvaluateAllSkipsUnpredicted` and
   * `EvaluateAllCountsPredicted` for which errors those are).
   */
  function EvaluateAll(data: seq<Item>): (r: Dict<real>)
    ensures Keys(r) == ["overall_mae"]
    ensures r[0].value == CalculateMae(PresentErrors(data))
    ensures r[0].value >= 0.0
  {
    MaeNonNegative(PresentErrors(data));
    [Entry("overall_mae", CalculateMae(PresentErrors(data)))]
  }

  /** Only items with a prediction count: adding one without a prediction changes nothing. */
  lemma EvaluateAllSkipsUnpredicted(data: seq<Item>, x: Item)
    requires x.prediction.None?
    ensures EvaluateAll(data + [x]) == EvaluateAll(data)
  {
    assert (data + [x])[..|data|] == data;
    assert PresentErrors(data + [x]) == PresentErrors(data);
  }

  /** An item with a prediction contributes its absolute error. */
  lemma EvaluateAllCountsPredicted(data: seq<Item>, x: Item)
    requires x.prediction.Some?
    ensures PresentErrors(data + [x]) == PresentErrors(data) + [Abs(x.prediction.value - x.value)]
  {
    assert (data + [x])[..|data|] == data;
  }

  function HorizonKey(x: Item): string {
    "horizon_" + IntToString(x.horizon)
  }

  function HourKey(x: Item): string {
    "hour_" + IntToString(x.hour)
  }

  /** Two items share a bucket exactly when they share a horizon. */
  lemma HorizonKeySeparates(x: Item, y: Item)
    ensures HorizonKey(x) == HorizonKey(y) <==> x.horizon == y.horizon
  {
    if HorizonKey(x) == HorizonKey(y) {
      assert IntToString(x.horizon) == HorizonKey(x)[8..];
      assert IntToString(y.horizon) == HorizonKey(y)[8..];
      IntToStringInjective(x.horizon, y.horizon);
    }
  }

  lemma HourKeySeparates(x: Item, y: Item)
    ensures HourKey(x) == HourKey(y) <==> x.hour == y.hour
  {
    if HourKey(x) == HourKey(y) {
      assert IntToString(x.hour) == HourKey(x)[5..];
      assert IntToString(y.hour) == HourKey(y)[5..];
      IntToStringInjective(x.hour, y.hour);
    }
  }

  predicate AllPredicted(data: seq<Item>) {
    forall i :: 0 <= i < |data| ==> data[i].prediction.Some?
  }

  /** Left fold of `step` over the items, oldest first. */
  function FoldItems<S>(data: seq<Item>, init: S, step: (S, Item) -> S): S {
    if data == [] then init
    else step(FoldItems(data[..|data| - 1], init, step), data[|data| - 1])
  }

  lemma FoldSnoc<S>(data: seq<Item>, i: nat, init: S, step: (S, Item) -> S)
    requires i < |data|
    ensures FoldItems(data[..i + 1], init, step) == step(FoldItems(data[..i], init, step), data[i])
  {
    assert data[..i + 1][..i] == data[..i];
  }

  /** A loop folding `step` over the items that stops at the first record without a prediction. */
  method FoldPredicted<S>(data: seq<Item>, init: S, step: (S, Item) -> S) returns (r: Option<S>)
    ensures r.None? <==> !AllPredicted(data)
    ensures r.Some? ==> r.value == FoldItems(data, init, step)
  {
    var acc := init;
    for i := 0 to |data|
      invariant forall j :: 0 <= j < i ==> data[j].prediction.Some?
      invariant acc == FoldItems(data[..i], init, step)
    {
      var x := data[i];
      if x.prediction.None? {
        return None;
      }
      FoldSnoc(data, i, init, step);
      acc := step(acc, x);
    }
    assert data[..|data|] == data;
    r := Some(acc);
  }

  /** One step of `_evaluate_daily`: the item's error goes into the bucket of its horizon. */
  function DailyStep(d: Dict<seq<real>>, x: Item): Dict<seq<real>> {
    Append(d, HorizonKey(x), ErrorOf(x))
  }

  /** The per-horizon errors `_evaluate_daily` collects. */
  function DailyErrors(data: seq<Item>): Dict<seq<real>> {
    FoldItems(data, [], DailyStep)
  }

  /** The loop builds exactly the default dictionary of lists grouped by horizon key. */
  lemma {:induction false} DailyErrorsGrouped(data: seq<Item>)
    ensures DailyErrors(data) == Grouped(data, HorizonKey, ErrorOf)
  {
    if data != [] {
      DailyErrorsGrouped(data[..|data| - 1]);
    }
  }

  /**
   * Every item's error lands in the bucket of its horizon, in item order; no
   * bucket key repeats; the bucket sizes add up to the number of items.
   */
  lemma DailyBuckets(data: seq<Item>, k: string)
    ensures Bucket(DailyErrors(data), k) == Pick(data, HorizonKey, ErrorOf, k)
    ensures DistinctKeys(DailyErrors(data)) && Total(DailyErrors(data)) == |data|
    ensures k in Keys(DailyErrors(data)) <==> exists i :: 0 <= i < |data| && HorizonKey(data[i]) == k
  {
    DailyErrorsGrouped(data);
    GroupedBucket(data, HorizonKey, ErrorOf, k);
    GroupedTotal(data, HorizonKey, ErrorOf);
    GroupedKeys(data, HorizonKey, ErrorOf, k);
  }

  /** `_evaluate_daily`: the MAE of every horizon bucket, in order of first appearance. */
  method EvaluateDaily(data: seq<Item>) returns (r: Option<Dict<real>>)
    ensures r.None? <==> !AllPredicted(data)
    ensures r.Some? ==> r.value == MapValues(DailyErrors(data), CalculateMae)
  {
    var buckets := FoldPredicted(data, [], DailyStep);
    r := if buckets.Some? then Some(MapValues(buckets.value, CalculateMae)) else None;
  }

  // Nested grouping, `hour_{h}` then `horizon_{h}`.

  function Inner(d: Dict<Dict<seq<real>>>, k: string): Dict<seq<real>> {
    var r := Lookup(d, k);
    if r.Some? then r.value else []
  }

  function NestedAppend(d: Dict<Dict<seq<real>>>, outer: string, inner: string, v: real): Dict<Dict<seq<real>>> {
    Put(d, outer, Append(Inner(d, outer), inner, v))
  }

  /** One step of `_evaluate_hourly`: the item's error goes under its hour, then its horizon. */
  function HourlyStep(d: Dict<Dict<seq<real>>>, x: Item): Dict<Dict<seq<real>>> {
    NestedAppend(d, HourKey(x), HorizonKey(x), ErrorOf(x))
  }

  /** The per-hour, per-horizon errors `_evaluate_hourly` collects. */
  function HourlyErrors(data: seq<Item>): Dict<Dict<seq<real>>> {
    FoldItems(data, [], HourlyStep)
  }

  /** The errors of the items of one hour and one horizon, in item order. */
  function PickCell(data: seq<Item>, hourKey: string, horizonKey: string): seq<real> {
    if data == [] then []
    else
      var last := data[|data| - 1];
      PickCell(data[..|data| - 1], hourKey, horizonKey)
        + (if HourKey(last) == hourKey && HorizonKey(last) == horizonKey then [ErrorOf(last)] else [])
  }

  /** Appending under (`outer`, `inner`) adds `v` to that sub-bucket and to no other. */
  lemma NestedAppendBucket(d: Dict<Dict<seq<real>>>, outer: string, inner: string, v: real, hourKey: string, horizonKey: string)
    ensures Bucket(Inner(NestedAppend(d, outer, inner, v), hourKey), horizonKey)
         == Bucket(Inner(d, hourKey), horizonKey) + (if outer == hourKey && inner == horizonKey then [v] else [])
  {
    var sub := Inner(d, outer);
    var sub' := Append(sub, inner, v);
    PutLookup(d, outer, sub');
    PutLookup(sub, inner, Bucket(sub, inner) + [v]);
  }

  /** Each item's error lands in the sub-bucket of its hour and horizon, one error per item. */
  lemma {:induction false} HourlyBuckets(data: seq<Item>, hourKey: string, horizonKey: string)
    ensures Bucket(Inner(HourlyErrors(data), hourKey), horizonKey) == PickCell(data, hourKey, horizonKey)
  {
    if data != [] {
      var init, last := data[..|data| - 1], data[|data| - 1];
      var d := HourlyErrors(init);
      assert HourlyErrors(data) == HourlyStep(d, last);
      HourlyBuckets(init, hourKey, horizonKey);
      NestedAppendBucket(d, HourKey(last), HorizonKey(last), ErrorOf(last), hourKey, horizonKey);
    }
  }

  /** No hour key repeats. */
  lemma {:induction false} HourlyDistinct(data: seq<Item>)
    ensures DistinctKeys(HourlyErrors(data))
  {
    if data != [] {
      var init, last := data[..|data| - 1], data[|data| - 1];
      var d := HourlyErrors(init);
      assert HourlyErrors(data) == HourlyStep(d, last);
      HourlyDistinct(init);
      PutKeys(d, HourKey(last), Append(Inner(d, HourKey(last)), HorizonKey(last), ErrorOf(last)));
    }
  }

  function HourlyMae(d: Dict<Dict<seq<real>>>): Dict<Dict<real>> {
    MapValues(d, (inner: Dict<seq<real>>) => MapValues(inner, CalculateMae))
  }

  /** `_evaluate_hourly`: the MAE of every (hour, horizon) sub-bucket. */
  method EvaluateHourly(data: seq<Item>) returns (r: Option<Dict<Dict<real>>>)
    ensures r.None? <==> !AllPredicted(data)
    ensures r.Some? ==> r.value == HourlyMae(HourlyErrors(data))
  {
    var buckets := FoldPredicted(data, [], HourlyStep);
    r := if buckets.Some? then Some(HourlyMae(buckets.value)) else None;
  }

  // `append_metrics_to_df`: one `mae_<model>` column per `prediction_<model>` column.

  const PredictionPrefix := "prediction_"

  /** `mae_` followed by the column name with every `prediction_` removed. */
  function MetricName(col: string): string {
    "mae_" + Replace(col, PredictionPrefix, "")
  }

  /** `(p - v).abs()` on one cell: missing or non-numeric operands give a missing cell. */
  function AbsDiff(p: Value, v: Value): (r: Value)
    ensures r.Num? <==> p.Num? && v.Num?
    ensures r.Num? ==> r.x >= 0.0 && (r.x == p.x - v.x || r.x == v.x - p.x)
  {
    if p.Num? && v.Num? then Num(Abs(p.x - v.x)) else Missing
  }

  /** The column of absolute differences, aligned by position. */
  function AbsErrors(ps: seq<Value>, vs: seq<Value>): (r: seq<Value>)
    ensures |r| == |ps|
  {
    seq(|ps|, i requires 0 <= i < |ps| => AbsDiff(ps[i], if i < |vs| then vs[i] else Missing))
  }

  /** `DataFrame.empty`: no rows or no columns. */
  predicate IsEmpty(t: Table) {
    |t.index| == 0 || |t.cols| == 0
  }

  /** One turn of the loop: a prediction column reads the current `value` column, or fails on a missing key. */
  function MetricStep(t: Table, col: string): Option<Table> {
    if !StartsWith(col, PredictionPrefix) then Some(t)
    else
      var p, v := Get(t, col), Get(t, "value");
      if p.None? || v.None? then None else Some(Set(t, MetricName(col), AbsErrors(p.value, v.value)))
  }

  /** The loop over `names`, oldest first, stopping at the first failure. */
  function AddMetrics(t: Table, names: seq<string>): Option<Table> {
    if names == [] then Some(t)
    else
      var r := AddMetrics(t, names[..|names| - 1]);
      if r.None? then None else MetricStep(r.value, names[|names| - 1])
  }

  /** Neither the `value` column nor a prediction column can be taken for a metric column. */
  lemma NotMetricName(col: string)
    ensures !StartsWith("value", "mae_")
    ensures StartsWith(col, PredictionPrefix) ==> !StartsWith(col, "mae_")
  {
    assert "value"[..4][0] == 'v' && "mae_"[0] == 'm';
    if StartsWith(col, PredictionPrefix) {
      assert col[0] == PredictionPrefix[0];
      assert col[..4][0] == col[0];
    }
  }

  lemma MetricNameIsNew(col: string)
    ensures StartsWith(MetricName(col), "mae_")
    ensures !StartsWith(MetricName(col), PredictionPrefix)
    ensures MetricName(col) != "value"
  {
    assert MetricName(col)[0] == 'm';
  }

  /** Columns whose name does not start with `mae_` (the inputs among them) are never touched, nor is the index. */
  lemma {:induction false} MetricsKeepColumns(t: Table, names: seq<string>, k: string)
    requires AddMetrics(t, names).Some?
    requires !StartsWith(k, "mae_")
    ensures AddMetrics(t, names).value.index == t.index
    ensures Get(AddMetrics(t, names).value, k) == Get(t, k)
  {
    if names != [] {
      var init, col := names[..|names| - 1], names[|names| - 1];
      MetricsKeepColumns(t, init, k);
      var r := AddMetrics(t, init).value;
      if StartsWith(col, PredictionPrefix) {
        var p, v := Get(r, col), Get(r, "value");
        MetricNameIsNew(col);
        SetEffect(r, MetricName(col), AbsErrors(p.value, v.value));
      }
    }
  }

  /** Every column name the loop starts with is still there. */
  lemma {:induction false} MetricsKeepNames(t: Table, names: seq<string>, k: string)
    requires AddMetrics(t, names).Some?
    requires k in Names(t)
    ensures k in Names(AddMetrics(t, names).value)
  {
    if names != [] {
      var init, col := names[..|names| - 1], names[|names| - 1];
      MetricsKeepNames(t, init, k);
      var r := AddMetrics(t, init).value;
      if StartsWith(col, PredictionPrefix) {
        var p, v := Get(r, col), Get(r, "value");
        SetEffect(r, MetricName(col), AbsErrors(p.value, v.value));
      }
    }
  }

  predicate HasPrediction(names: seq<string>) {
    exists j :: 0 <= j < |names| && StartsWith(names[j], PredictionPrefix)
  }

  /** Without a `value` column the call fails exactly when there is a prediction column, and otherwise changes nothing. */
  lemma {:induction false} MetricsWithoutValue(t: Table, names: seq<string>)
    requires Get(t, "value").None?
    ensures AddMetrics(t, names) == if HasPrediction(names) then None else Some(t)
  {
    if names != [] {
      var init, col := names[..|names| - 1], names[|names| - 1];
      MetricsWithoutValue(t, init);
      if HasPrediction(init) {
        var j :| 0 <= j < |init| && StartsWith(init[j], PredictionPrefix);
        assert names[j] == init[j];
      } else if StartsWith(col, PredictionPrefix) {
        assert names[|names| - 1] == col;
      } else {
        forall j | 0 <= j < |names|
          ensures !StartsWith(names[j], PredictionPrefix)
        {
          if j < |init| {
            assert init[j] == names[j];
          }
        }
      }
    }
  }

  /** With a `value` column and columns taken from the frame, the call succeeds and keeps the frame well formed. */
  lemma {:induction false} MetricsSucceed(t: Table, names: seq<string>)
    requires Get(t, "value").Some?
    requires forall j :: 0 <= j < |names| ==> names[j] in Names(t)
    requires WellFormed(t)
    ensures AddMetrics(t, names).Some?
    ensures WellFormed(AddMetrics(t, names).value)
  {
    if names != [] {
      var init, col := names[..|names| - 1], names[|names| - 1];
      MetricsSucceed(t, init);
      var r := AddMetrics(t, init).value;
      if StartsWith(col, PredictionPrefix) {
        MetricsKeepNames(t, init, col);
        MetricsKeepNames(t, init, "value");
        NotMetricName(col);
        MetricsKeepColumns(t, init, "value");
        var p, v := Get(r, col), Get(r, "value");
        GetWellFormed(r, col);
        GetWellFormed(r, "value");
        SetEffect(r, MetricName(col), AbsErrors(p.value, v.value));
      }
    }
  }

  /**
   * A prediction column whose metric name no later prediction column shares
   * ends up with its absolute errors against `value` in that metric column.
   */
  lemma {:induction false} MetricsColumn(t: Table, names: seq<string>, j: nat)
    requires AddMetrics(t, names).Some?
    requires j < |names| && StartsWith(names[j], PredictionPrefix)
    requires forall k :: j < k < |names| && StartsWith(names[k], PredictionPrefix) ==> MetricName(names[k]) != MetricName(names[j])
    requires Get(t, names[j]).Some? && Get(t, "value").Some?
    ensures Get(AddMetrics(t, names).value, MetricName(names[j]))
         == Some(AbsErrors(Get(t, names[j]).value, Get(t, "value").value))
  {
    var init, col := names[..|names| - 1], names[|names| - 1];
    var r := AddMetrics(t, init).value;
    NotMetricName(names[j]);
    MetricsKeepColumns(t, init, names[j]);
    MetricsKeepColumns(t, init, "value");
    if j == |names| - 1 {
      MetricsKeepNames(t, init, "value");
      SetEffect(r, MetricName(col), AbsErrors(Get(r, col).value, Get(r, "value").value));
    } else {
      assert init[j] == names[j];
      MetricsColumn(t, init, j);
      if StartsWith(col, PredictionPrefix) {
        SetEffect(r, MetricName(col), AbsErrors(Get(r, col).value, Get(r, "value").value));
      }
    }
  }

  lemma MetricSnoc(t: Table, names: seq<string>, i: nat)
    requires i < |names|
    ensures AddMetrics(t, names[..i + 1])
         == if AddMetrics(t, names[..i]).None? then None else MetricStep(AddMetrics(t, names[..i]).value, names[i])
  {
    assert names[..i + 1][..i] == names[..i];
  }

  /**
   * `append_metrics_to_df`: an empty frame is returned untouched; otherwise
   * the loop runs over the columns the frame had on entry.  A missing
   * `value` column is a key error, raised before anything is assigned.
   */
  method AppendMetricsToDf(df: DataFrame) returns (ok: bool)
    modifies df
    ensures IsEmpty(old(df.Snapshot())) ==> ok && df.Snapshot() == old(df.Snapshot())
    ensures !IsEmpty(old(df.Snapshot())) ==>
      ok == AddMetrics(old(df.Snapshot()), Names(old(df.Snapshot()))).Some?
    ensures !IsEmpty(old(df.Snapshot())) && ok ==>
      df.Snapshot() == AddMetrics(old(df.Snapshot()), Names(old(df.Snapshot()))).value
    ensures !ok ==> df.Snapshot() == old(df.Snapshot())
  {
    var t0 := df.Snapshot();
    if |df.index| == 0 || |df.cols| == 0 {
      return true;
    }
    var names := Names(t0);
    for i := 0 to |names|
      invariant AddMetrics(t0, names[..i]) == Some(df.Snapshot())
      invariant Get(t0, "value").None? ==> df.Snapshot() == t0
    {
      MetricSnoc(t0, names, i);
      var col := names[i];
      if StartsWith(col, PredictionPrefix) {
        var v := Lookup(df.cols, "value");
        NotMetricName(col);
        MetricsKeepColumns(t0, names[..i], "value");
        if v.None? {
          MetricsWithoutValue(t0, names);
          return false;
        }
        MetricsKeepNames(t0, names[..i], col);
        var p := Lookup(df.cols, col);
        df.Assign(MetricName(col), AbsErrors(p.value, v.value));
      }
    }
    assert names[..|names|] == names;
    ok := true;
  }

  datatype Report = Flat(entries: Dict<real>) | Nested(groups: Dict<Dict<real>>) | KeyError

  /** `evaluate`: dispatch on the kind; an unknown kind gives an empty dictionary. */
  method Evaluate(e: BaseEvaluator.Evaluator, data: seq<Item>) returns (r: Report)
    ensures e.kind == "all" ==> r == Flat(EvaluateAll(data))
    ensures e.kind == "daily" ==>
      r == if AllPredicted(data) then Flat(MapValues(DailyErrors(data), CalculateMae)) else KeyError
    ensures e.kind == "hourly" ==>
      r == if AllPredicted(data) then Nested(HourlyMae(HourlyErrors(data))) else KeyError
    ensures e.kind !in {"all", "daily", "hourly"} ==> r == Flat([])
  {
    if e.kind == "all" {
      r := Flat(EvaluateAll(data));
    } else if e.kind == "daily" {
      var d := EvaluateDaily(data);
      r := if d.Some? then Flat(d.value) else KeyError;
    } else if e.kind == "hourly" {
      var h := EvaluateHourly(data);
      r := if h.Some? then Nested(h.value) else KeyError;
    } else {
      r := Flat([]);
    }
  }
}
