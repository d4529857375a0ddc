/**
 * The coefficients evaluator: validation of the coefficient fields of a
 * result record, their flattening into long format, the rows it merges
 * into the side-by-side details frame, and the empty cases of `evaluate`.
 */
module CoefsEvaluator {
  import opened Wrappers
  import opened OrderedDict
  import BaseEvaluator

  /** The `predictors` field as `item.get` sees it. */
  datatype PredictorsField = PAbsent | PNone | PName(name: string) | PList(names: seq<string>)

  /** One element of a `coefs` list: a number or a nested list of numbers. */
  datatype CoefValue = Scalar(x: real) | Vector(xs: seq<real>)

  /** The `coefs` field as `item.get` sees it. */
  datatype CoefsField = CAbsent | CNone | CList(elems: seq<CoefValue>)

  /**
   * The part of a result record the evaluator reads.  `date` is the
   * record's calendar day as a day number; workers always set `hour` and
   * `horizon`.
   */
  datatype CoefItem = CoefItem(predictors: PredictorsField, coefs: CoefsField, hour: int, horizon: int, date: int)

  /** Python truthiness of the `predictors` field. */
  predicate Truthy(p: PredictorsField) {
    match p
    case PAbsent => false
    case PNone => false
    case PName(name) => name != []
    case PList(names) => names != []
  }

  /** A non-list predictor becomes a one-element list. */
  function PredictorList(p: PredictorsField): seq<string>
    requires p.PName? || p.PList?
  {
    if p.PList? then p.names else [p.name]
  }

  /** The values a non-empty `coefs` list supplies: its first element when that is a list, else the list itself. */
  function CoefValues(elems: seq<CoefValue>): seq<CoefValue>
    requires elems != []
  {
    if elems[0].Vector? then seq(|elems[0].xs|, i requires 0 <= i < |elems[0].xs| => Scalar(elems[0].xs[i]))
    else elems
  }

  datatype Validated = Validated(predictors: seq<string>, values: seq<CoefValue>)

  /** `_get_validated_coefs`; `None` stands for the `(None, None)` pair. */
  function ValidatedCoefs(item: CoefItem): (r: Option<Validated>)
    ensures r.None? <==>
      !Truthy(item.predictors) || !item.coefs.CList? || item.coefs.elems == []
      || |PredictorList(item.predictors)| != |CoefValues(item.coefs.elems)|
    ensures r.Some? ==> |r.value.predictors| == |r.value.values| >= 1
    ensures r.Some? ==> r.value.predictors == PredictorList(item.predictors)
    ensures r.Some? ==> r.value.values == CoefValues(item.coefs.elems)
  {
    if !Truthy(item.predictors) || !item.coefs.CList? || item.coefs.elems == [] then None
    else
      var predictors := PredictorList(item.predictors);
      var values := CoefValues(item.coefs.elems);
      if |predictors| != |values| then None else Some(Validated(predictors, values))
  }

  /** A single predictor name is wrapped into a one-element list. */
  lemma WrapsSingleName(item: CoefItem)
    requires item.predictors.PName? && item.predictors.name != []
    requires item.coefs.CList? && item.coefs.elems != []
    requires |CoefValues(item.coefs.elems)| == 1
    ensures ValidatedCoefs(item) == Some(Validated([item.predictors.name], CoefValues(item.coefs.elems)))
  {
  }

  /** A nested first element supplies the values, one scalar per number, whatever follows it. */
  lemma NestedFirstSupplies(item: CoefItem)
    requires item.coefs.CList? && item.coefs.elems != [] && item.coefs.elems[0].Vector?
    requires ValidatedCoefs(item).Some?
    ensures |ValidatedCoefs(item).value.values| == |item.coefs.elems[0].xs|
    ensures forall i :: 0 <= i < |item.coefs.elems[0].xs| ==>
      ValidatedCoefs(item).value.values[i] == Scalar(item.coefs.elems[0].xs[i])
  {
  }

  // `_flatten_to_long_format`

  datatype LongRow = LongRow(hour: int, horizon: int, predictorName: string, coefValue: CoefValue)

  /** The long-format rows of one item: one per (predictor, coefficient) pair, in predictor order. */
  function ItemRows(item: CoefItem): (rows: seq<LongRow>)
    ensures ValidatedCoefs(item).None? ==> rows == []
    ensures ValidatedCoefs(item).Some? ==>
      |rows| == |ValidatedCoefs(item).value.predictors|
      && forall i :: 0 <= i < |rows| ==>
           rows[i] == LongRow(item.hour, item.horizon, ValidatedCoefs(item).value.predictors[i], ValidatedCoefs(item).value.values[i])
  {
    var v := ValidatedCoefs(item);
    if v.None? then []
    else
      seq(|v.value.predictors|, i requires 0 <= i < |v.value.predictors| =>
        LongRow(item.hour, item.horizon, v.value.predictors[i], v.value.values[i]))
  }

  /** The rows `f` gives for each element, in element order. */
  function FlatMap<T, U>(xs: seq<T>, f: T -> seq<U>): seq<U> {
    if xs == [] then [] else FlatMap(xs[..|xs| - 1], f) + f(xs[|xs| - 1])
  }

  lemma {:induction false} FlatMapConcat<T, U>(a: seq<T>, b: seq<T>, f: T -> seq<U>)
    ensures FlatMap(a + b, f) == FlatMap(a, f) + FlatMap(b, f)
  {
    if b == [] {
      assert a + b == a;
    } else {
      var b', x := b[..|b| - 1], b[|b| - 1];
      assert (a + b)[..|a + b| - 1] == a + b';
      assert (a + b)[|a + b| - 1] == x;
      FlatMapConcat(a, b', f);
    }
  }

  /** The rows of all items, in item order. */
  function Flattened(data: seq<CoefItem>): seq<LongRow> {
    FlatMap(data, ItemRows)
  }

  /** The number of (predictor, coefficient) pairs over the valid items. */
  function PairCount(data: seq<CoefItem>): nat {
    if data == [] then 0
    else
      var v := ValidatedCoefs(data[|data| - 1]);
      PairCount(data[..|data| - 1]) + (if v.Some? then |v.value.predictors| else 0)
  }

  lemma {:induction false} FlattenedLength(data: seq<CoefItem>)
    ensures |Flattened(data)| == PairCount(data)
  {
    if data != [] {
      FlattenedLength(data[..|data| - 1]);
    }
  }

  /** Flattening goes item by item: the rows of `a + b` are those of `a` then those of `b`. */
  lemma FlattenedConcat(a: seq<CoefItem>, b: seq<CoefItem>)
    ensures Flattened(a + b) == Flattened(a) + Flattened(b)
  {
    FlatMapConcat(a, b, ItemRows);
  }

  /** An invalid item contributes nothing. */
  lemma InvalidContributesNothing(data: seq<CoefItem>, item: CoefItem)
    requires ValidatedCoefs(item).None?
    ensures Flattened(data + [item]) == Flattened(data)
  {
    assert (data + [item])[..|data|] == data;
  }

  lemma FlattenedSnoc(data: seq<CoefItem>, i: nat)
    requires i < |data|
    ensures Flattened(data[..i + 1]) == Flattened(data[..i]) + ItemRows(data[i])
  {
    assert data[..i + 1][..i] == data[..i];
  }

  /** The loop of `_flatten_to_long_format`. */
  method FlattenToLongFormat(data: seq<CoefItem>) returns (flat: seq<LongRow>)
    ensures flat == Flattened(data)
  {
    flat := [];
    for i := 0 to |data|
      invariant flat == Flattened(data[..i])
    {
      FlattenedSnoc(data, i);
      var v := ValidatedCoefs(data[i]);
      if v.None? {
        continue;
      }
      var predictors, values := v.value.predictors, v.value.values;
      for j := 0 to |predictors|
        invariant flat == Flattened(data[..i]) + ItemRows(data[i])[..j]
      {
        assert ItemRows(data[i])[..j + 1] == ItemRows(data[i])[..j] + [ItemRows(data[i])[j]];
        flat := flat + [LongRow(data[i].hour, data[i].horizon, predictors[j], values[j])];
      }
    }
    assert data[..|data|] == data;
  }

  // `evaluate`

  /** The pivot tables are not modelled: a non-empty result records its kind and the long-format rows it aggregates. */
  datatype Summary = EmptyFrame | Pivot(kind: string, rows: seq<LongRow>)

  function Evaluate(e: BaseEvaluator.Evaluator, data: seq<CoefItem>): (r: Summary)
    ensures r.Pivot? <==> data != [] && Flattened(data) != [] && e.kind in {"all", "daily", "hourly"}
    ensures r.Pivot? ==> r.kind == e.kind && r.rows == Flattened(data)
  {
    if data == [] then EmptyFrame
    else
      var long := Flattened(data);
      if long == [] then EmptyFrame
      else if e.kind in {"all", "daily", "hourly"} then Pivot(e.kind, long)
      else EmptyFrame
  }

  /** Input made only of invalid records summarises to nothing. */
  lemma NoValidItemsIsEmpty(e: BaseEvaluator.Evaluator, data: seq<CoefItem>)
    requires forall i :: 0 <= i < |data| ==> ValidatedCoefs(data[i]).None?
    ensures Evaluate(e, data) == EmptyFrame
  {
    assert PairCount(data) == 0 by {
      PairCountInvalid(data);
    }
    FlattenedLength(data);
  }

  lemma {:induction false} PairCountInvalid(data: seq<CoefItem>)
    requires forall i :: 0 <= i < |data| ==> ValidatedCoefs(data[i]).None?
    ensures PairCount(data) == 0
  {
    if data != [] {
      PairCountInvalid(data[..|data| - 1]);
    }
  }

  // Row building in `append_metrics_to_df`

  /** `f"coef_{model}_{predictor}"`. */
  function CoefKey(model: string, predictor: string): string {
    "coef_" + model + "_" + predictor
  }

  /**
   * One row: the record's time stamp in hours (`date` plus `hour` hours) and
   * one entry per predictor; a repeated key keeps its first position and its
   * last value, as a dictionary assignment does.
   */
  datatype CoefRow = CoefRow(datetime: int, entries: Dict<CoefValue>)

  function Stamp(item: CoefItem): int {
    item.date * 24 + item.hour
  }

  function RowEntries(model: string, predictors: seq<string>, values: seq<CoefValue>): Dict<CoefValue>
    requires |predictors| == |values|
  {
    if predictors == [] then []
    else
      var n := |predictors| - 1;
      Put(RowEntries(model, predictors[..n], values[..n]), CoefKey(model, predictors[n]), values[n])
  }

  /** The keys of a row are exactly the coefficient keys of its predictors, each once. */
  lemma {:induction false} RowEntriesKeys(model: string, predictors: seq<string>, values: seq<CoefValue>, k: string)
    requires |predictors| == |values|
    ensures DistinctKeys(RowEntries(model, predictors, values))
    ensures k in Keys(RowEntries(model, predictors, values)) <==>
      exists j :: 0 <= j < |predictors| && CoefKey(model, predictors[j]) == k
  {
    if predictors != [] {
      var n := |predictors| - 1;
      var d := RowEntries(model, predictors[..n], values[..n]);
      RowEntriesKeys(model, predictors[..n], values[..n], k);
      PutKeys(d, CoefKey(model, predictors[n]), values[n]);
      if k in Keys(RowEntries(model, predictors, values)) && k != CoefKey(model, predictors[n]) {
        var j :| 0 <= j < n && CoefKey(model, predictors[..n][j]) == k;
        assert predictors[j] == predictors[..n][j];
      }
      if exists j :: 0 <= j < |predictors| && CoefKey(model, predictors[j]) == k {
        var j :| 0 <= j < |predictors| && CoefKey(model, predictors[j]) == k;
        if j < n {
          assert predictors[..n][j] == predictors[j];
        }
      }
    }
  }

  /** A predictor's key holds the coefficient of its last occurrence. */
  lemma {:induction false} RowEntriesValue(model: string, predictors: seq<string>, values: seq<CoefValue>, j: nat)
    requires |predictors| == |values| && j < |predictors|
    requires forall k :: j < k < |predictors| ==> predictors[k] != predictors[j]
    ensures Lookup(RowEntries(model, predictors, values), CoefKey(model, predictors[j])) == Some(values[j])
  {
    var n := |predictors| - 1;
    var d := RowEntries(model, predictors[..n], values[..n]);
    PutLookup(d, CoefKey(model, predictors[n]), values[n]);
    if j < n {
      assert predictors[..n][j] == predictors[j];
      assert values[..n][j] == values[j];
      RowEntriesValue(model, predictors[..n], values[..n], j);
      assert CoefKey(model, predictors[n]) != CoefKey(model, predictors[j]) by {
        CoefKeySeparates(model, predictors[n], predictors[j]);
      }
    }
  }

  /** Within one model, different predictors get different keys. */
  lemma CoefKeySeparates(model: string, p: string, q: string)
    ensures CoefKey(model, p) == CoefKey(model, q) <==> p == q
  {
    var pre := "coef_" + model + "_";
    assert CoefKey(model, p) == pre + p && CoefKey(model, q) == pre + q;
    if CoefKey(model, p) == CoefKey(model, q) {
      assert p == (pre + p)[|pre|..];
      assert q == (pre + q)[|pre|..];
    }
  }

  /** The row an item contributes, if its coefficients are valid. */
  function ItemRow(model: string, item: CoefItem): Option<CoefRow> {
    var v := ValidatedCoefs(item);
    if v.None? then None else Some(CoefRow(Stamp(item), RowEntries(model, v.value.predictors, v.value.values)))
  }

  /** The inner loop filling `row`. */
  method BuildRow(model: string, item: CoefItem, v: Validated) returns (row: CoefRow)
    requires ValidatedCoefs(item) == Some(v)
    ensures ItemRow(model, item) == Some(row)
  {
    var entries: Dict<CoefValue> := [];
    for j := 0 to |v.predictors|
      invariant entries == RowEntries(model, v.predictors[..j], v.values[..j])
    {
      assert v.predictors[..j + 1][..j] == v.predictors[..j];
      assert v.values[..j + 1][..j] == v.values[..j];
      entries := Put(entries, CoefKey(model, v.predictors[j]), v.values[j]);
    }
    assert v.predictors[..|v.predictors|] == v.predictors;
    assert v.values[..|v.values|] == v.values;
    row := CoefRow(Stamp(item), entries);
  }

  /** The rows of the valid items of one model, in item order. */
  function ModelRows(model: string, items: seq<CoefItem>): seq<CoefRow> {
    if items == [] then []
    else
      var r := ItemRow(model, items[|items| - 1]);
      ModelRows(model, items[..|items| - 1]) + (if r.Some? then [r.value] else [])
  }

  /** A model with no records, or whose first record has no `coefs` key, is skipped. */
  predicate Skipped(items: seq<CoefItem>) {
    items == [] || items[0].coefs.CAbsent?
  }

  /** `all_coef_rows`: the rows of every model that is not skipped, model by model. */
  function AllRows(outputs: Dict<seq<CoefItem>>): seq<CoefRow> {
    if outputs == [] then []
    else
      var last := outputs[|outputs| - 1];
      AllRows(outputs[..|outputs| - 1]) + (if Skipped(last.value) then [] else ModelRows(last.key, last.value))
  }

  /** The number of valid records of a model. */
  function ValidCount(items: seq<CoefItem>): nat {
    if items == [] then 0
    else ValidCount(items[..|items| - 1]) + (if ValidatedCoefs(items[|items| - 1]).Some? then 1 else 0)
  }

  /** A model that is not skipped contributes one row per valid record, each stamped with that record's time. */
  lemma {:induction false} ModelRowsCount(model: string, items: seq<CoefItem>)
    ensures |ModelRows(model, items)| == ValidCount(items)
  {
    if items != [] {
      ModelRowsCount(model, items[..|items| - 1]);
    }
  }

  lemma {:induction false} AllRowsSkipped(outputs: Dict<seq<CoefItem>>)
    requires forall i :: 0 <= i < |outputs| ==> Skipped(outputs[i].value)
    ensures AllRows(outputs) == []
  {
    if outputs != [] {
      AllRowsSkipped(outputs[..|outputs| - 1]);
    }
  }

  /** Every row carries only keys of its own model. */
  lemma {:induction false} ModelRowsKeys(model: string, items: seq<CoefItem>, i: nat, k: string)
    requires i < |ModelRows(model, items)|
    requires k in Keys(ModelRows(model, items)[i].entries)
    ensures exists p :: k == CoefKey(model, p)
  {
    var n := |items| - 1;
    var r := ItemRow(model, items[n]);
    if i < |ModelRows(model, items[..n])| {
      ModelRowsKeys(model, items[..n], i, k);
    } else {
      var v := ValidatedCoefs(items[n]).value;
      RowEntriesKeys(model, v.predictors, v.values, k);
      var j :| 0 <= j < |v.predictors| && CoefKey(model, v.predictors[j]) == k;
    }
  }

  lemma ModelRowsSnoc(model: string, items: seq<CoefItem>, i: nat)
    requires i < |items|
    ensures ModelRows(model, items[..i + 1])
         == ModelRows(model, items[..i]) + (if ItemRow(model, items[i]).Some? then [ItemRow(model, items[i]).value] else [])
  {
    assert items[..i + 1][..i] == items[..i];
  }

  lemma AllRowsSnoc(outputs: Dict<seq<CoefItem>>, m: nat)
    requires m < |outputs|
    ensures AllRows(outputs[..m + 1])
         == AllRows(outputs[..m]) + (if Skipped(outputs[m].value) then [] else ModelRows(outputs[m].key, outputs[m].value))
  {
    assert outputs[..m + 1][..m] == outputs[..m];
  }

  /** The two loops building `all_coef_rows`. */
  method CollectCoefRows(outputs: Dict<seq<CoefItem>>) returns (rows: seq<CoefRow>)
    ensures rows == AllRows(outputs)
  {
    rows := [];
    for m := 0 to |outputs|
      invariant rows == AllRows(outputs[..m])
    {
      AllRowsSnoc(outputs, m);
      var model, items := outputs[m].key, outputs[m].value;
      if items == [] || items[0].coefs.CAbsent? {
        continue;
      }
      rows := AppendModelRows(rows, model, items);
    }
    assert outputs[..|outputs|] == outputs;
  }

  /** The inner loop: appends the rows of one model's valid records to `all_coef_rows`. */
  method AppendModelRows(rows0: seq<CoefRow>, model: string, items: seq<CoefItem>) returns (rows: seq<CoefRow>)
    ensures rows == rows0 + ModelRows(model, items)
  {
    rows := rows0;
    for i := 0 to |items|
      invariant rows == rows0 + ModelRows(model, items[..i])
    {
      ModelRowsSnoc(model, items, i);
      var v := ValidatedCoefs(items[i]);
      if v.None? {
        continue;
      }
      var row := BuildRow(model, items[i], v.value);
      rows := rows + [row];
    }
    assert items[..|items|] == items;
  }

  /** What `append_metrics_to_df` does with the details frame; the group-by and left merge are not modelled. */
  datatype Outcome = Unchanged | Merge(rows: seq<CoefRow>)

  method AppendMetricsToDf(outputs: Dict<seq<CoefItem>>) returns (o: Outcome)
    ensures o == Unchanged <==> AllRows(outputs) == []
    ensures o.Merge? ==> o.rows == AllRows(outputs)
  {
    var rows := CollectCoefRows(outputs);
    if rows == [] {
      return Unchanged;
    }
    o := Merge(rows);
  }
}
