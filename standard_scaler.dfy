/**
 * The standardising scaler: it classifies the predictors of a task into
 * dummy and numeric columns on the train slice, standardises the numeric
 * predictors of train and test and the target of train with statistics fitted
 * on train alone, and keeps the target's fitted transform for `Inverse`.
 * The fitting itself (mean and standard deviation in the numeric library) is
 * a parameter: any fitter returning a positive scale.
 */
module StandardScaler {
  import opened Wrappers
  import opened Dataset

  datatype Affine = Affine(mean: real, scale: real)

  /** A fitted standardisation: z = (y - mean) / scale with scale > 0. */
  type Standardizer = a: Affine | a.scale > 0.0 witness Affine(0.0, 1.0)

  /** Fits a standardisation to the values of one train column. */
  type Fitter = seq<Option<real>> -> Standardizer

  function Apply(s: Standardizer, y: real): real {
    (y - s.mean) / s.scale
  }

  function Unapply(s: Standardizer, z: real): real {
    z * s.scale + s.mean
  }

  /** Standardising and then inverting gives back the original value, and conversely. */
  lemma RoundTrip(s: Standardizer, y: real)
    ensures Unapply(s, Apply(s, y)) == y
    ensures Apply(s, Unapply(s, y)) == y
  {
    calc {
      Unapply(s, Apply(s, y));
      ((y - s.mean) / s.scale) * s.scale + s.mean;
      { assert ((y - s.mean) / s.scale) * s.scale == y - s.mean; }
      y;
    }
  }

  /** A missing cell stays missing, as NaN does in the numeric library. */
  function ApplyCell(s: Standardizer, c: Option<real>): Option<real> {
    if c.Some? then Some(Apply(s, c.value)) else None
  }

  /** The distinct non-missing values of a column, as counted by `nunique`. */
  function DistinctValues(rows: seq<Row>, name: string): set<real> {
    set i | 0 <= i < |rows| && Cell(rows[i].cols, name).Some? :: Cell(rows[i].cols, name).value
  }

  predicate IsDummy(train: seq<Row>, name: string) {
    |DistinctValues(train, name)| == 2
  }

  /** The predictors with exactly two distinct values in train, in predictor order. */
  function DummyColumns(train: seq<Row>, predictors: seq<string>): (d: seq<string>)
    ensures forall c :: c in d <==> c in predictors && IsDummy(train, c)
  {
    if predictors == [] then []
    else (if IsDummy(train, predictors[0]) then [predictors[0]] else [])
         + DummyColumns(train, predictors[1..])
  }

  /** The predictors that are neither dummy nor the target, in predictor order. */
  function NumericColumns(train: seq<Row>, predictors: seq<string>, target: string): (n: seq<string>)
    ensures forall c :: c in n <==> c in predictors && !IsDummy(train, c) && c != target
    ensures forall c :: c in n ==> c !in DummyColumns(train, predictors)
    ensures target !in n
  {
    if predictors == [] then []
    else (var c := predictors[0];
          if c !in DummyColumns(train, predictors) && c != target then [c] else [])
         + NumericColumns(train, predictors[1..], target)
  }

  /**
   * The numeric columns are the predictors filtered one by one: classifying a
   * concatenation of predictor lists concatenates the classifications, so the
   * numeric list keeps the predictors' order and their repetitions.
   */
  lemma {:induction false} NumericColumnsConcat(train: seq<Row>, p: seq<string>, q: seq<string>, target: string)
    ensures NumericColumns(train, p + q, target)
         == NumericColumns(train, p, target) + NumericColumns(train, q, target)
  {
    if p == [] {
      assert p + q == q;
    } else {
      assert (p + q)[1..] == p[1..] + q;
      NumericColumnsConcat(train, p[1..], q, target);
    }
  }

  lemma NumericColumnsSingle(train: seq<Row>, c: string, target: string)
    ensures NumericColumns(train, [c], target)
         == if !IsDummy(train, c) && c != target then [c] else []
  {
  }

  /** The fitted transform of each numeric column, from train's values only. */
  function NumericFits(train: seq<Row>, numeric: seq<string>, fit: Fitter): (m: map<string, Standardizer>)
    ensures m.Keys == set c | c in numeric
    ensures forall c :: c in m ==> m[c] == fit(ColumnValues(train, c))
  {
    map c | c in numeric :: fit(ColumnValues(train, c))
  }

  function ScaleNumeric(r: Row, fits: map<string, Standardizer>): Row {
    r.(cols := r.cols + map c | c in fits :: ApplyCell(fits[c], Cell(r.cols, c)))
  }

  function ScaleTarget(r: Row, target: string, s: Standardizer): Row {
    r.(cols := r.cols[target := ApplyCell(s, Cell(r.cols, target))])
  }

  /** Standardising a row's numeric columns changes those cells only. */
  lemma ScaleNumericCells(r: Row, fits: map<string, Standardizer>)
    ensures ScaleNumeric(r, fits).hour == r.hour && ScaleNumeric(r, fits).day == r.day
    ensures forall c :: c in fits ==> Cell(ScaleNumeric(r, fits).cols, c) == ApplyCell(fits[c], Cell(r.cols, c))
    ensures forall c :: c !in fits ==>
      (c in ScaleNumeric(r, fits).cols <==> c in r.cols) && Cell(ScaleNumeric(r, fits).cols, c) == Cell(r.cols, c)
  {
  }

  datatype Scaled = Scaled(test: seq<Row>, train: seq<Row>, targetFit: Standardizer)

  /** Every row with its numeric columns standardised. */
  function ScaleNumericRows(rows: seq<Row>, fits: map<string, Standardizer>): (r: seq<Row>)
    ensures |r| == |rows| && forall i :: 0 <= i < |rows| ==> r[i] == ScaleNumeric(rows[i], fits)
  {
    seq(|rows|, i requires 0 <= i < |rows| => ScaleNumeric(rows[i], fits))
  }

  /** Every row with its target standardised. */
  function ScaleTargetRows(rows: seq<Row>, target: string, targetFit: Standardizer): (r: seq<Row>)
    ensures |r| == |rows| && forall i :: 0 <= i < |rows| ==> r[i] == ScaleTarget(rows[i], target, targetFit)
  {
    seq(|rows|, i requires 0 <= i < |rows| => ScaleTarget(rows[i], target, targetFit))
  }

  /**
   * What the numeric library needs to fit and apply a standardisation: at
   * least one train row, at least one test row and at least one numeric
   * column.  Otherwise `fit_transform` or `transform` raises.
   */
  predicate CanScale(train: seq<Row>, test: seq<Row>, predictors: seq<string>, target: string) {
    |train| > 0 && |test| > 0 && NumericColumns(train, predictors, target) != []
  }

  /** The slices `transform(train, test, predictors, target)` produces when it does not raise. */
  function Standardised(train: seq<Row>, test: seq<Row>, predictors: seq<string>,
                        target: string, fit: Fitter): Scaled
  {
    var fits := NumericFits(train, NumericColumns(train, predictors, target), fit);
    var targetFit := fit(ColumnValues(train, target));
    Scaled(ScaleNumericRows(test, fits), ScaleTargetRows(ScaleNumericRows(train, fits), target, targetFit), targetFit)
  }

  /**
   * Numeric columns are standardised in train and in test with the fits of
   * train's values; the target is standardised in train only, with the fit of
   * train's target values; every other cell, and the hour and day of every
   * row, are left as they were.
   */
  lemma StandardisedCells(train: seq<Row>, test: seq<Row>, predictors: seq<string>,
                          target: string, fit: Fitter)
    ensures var s := Standardised(train, test, predictors, target, fit);
      && |s.train| == |train| && |s.test| == |test|
      && s.targetFit == fit(ColumnValues(train, target))
      && (forall i :: 0 <= i < |test| ==>
            s.test[i].hour == test[i].hour && s.test[i].day == test[i].day)
      && (forall i, c :: 0 <= i < |test| && c in NumericColumns(train, predictors, target) ==>
            Cell(s.test[i].cols, c) == ApplyCell(fit(ColumnValues(train, c)), Cell(test[i].cols, c)))
      && (forall i, c :: 0 <= i < |test| && c !in NumericColumns(train, predictors, target) ==>
            (c in s.test[i].cols <==> c in test[i].cols) && Cell(s.test[i].cols, c) == Cell(test[i].cols, c))
      && (forall i :: 0 <= i < |train| ==>
            s.train[i].hour == train[i].hour && s.train[i].day == train[i].day &&
            Cell(s.train[i].cols, target) == ApplyCell(s.targetFit, Cell(train[i].cols, target)))
      && (forall i, c :: 0 <= i < |train| && c in NumericColumns(train, predictors, target) ==>
            Cell(s.train[i].cols, c) == ApplyCell(fit(ColumnValues(train, c)), Cell(train[i].cols, c)))
      && (forall i, c :: 0 <= i < |train| && c !in NumericColumns(train, predictors, target) && c != target ==>
            (c in s.train[i].cols <==> c in train[i].cols) && Cell(s.train[i].cols, c) == Cell(train[i].cols, c))
  {
    var fits := NumericFits(train, NumericColumns(train, predictors, target), fit);
    forall i | 0 <= i < |test| {
      ScaleNumericCells(test[i], fits);
    }
    forall i | 0 <= i < |train| {
      ScaleNumericCells(train[i], fits);
    }
  }

  /** Standardises the numeric columns of every row in place. */
  method ScaleNumericInPlace(rows: array<Row>, fits: map<string, Standardizer>)
    modifies rows
    ensures rows[..] == ScaleNumericRows(old(rows[..]), fits)
  {
    ghost var rows0 := rows[..];
    var i := 0;
    while i < rows.Length
      invariant 0 <= i <= rows.Length
      invariant forall j :: 0 <= j < i ==> rows[j] == ScaleNumeric(rows0[j], fits)
      invariant forall j :: i <= j < rows.Length ==> rows[j] == rows0[j]
    {
      rows[i] := ScaleNumeric(rows[i], fits);
      i := i + 1;
    }
  }

  /** Standardises the target of every row in place. */
  method ScaleTargetInPlace(rows: array<Row>, target: string, targetFit: Standardizer)
    modifies rows
    ensures rows[..] == ScaleTargetRows(old(rows[..]), target, targetFit)
  {
    ghost var rows0 := rows[..];
    var i := 0;
    while i < rows.Length
      invariant 0 <= i <= rows.Length
      invariant forall j :: 0 <= j < i ==> rows[j] == ScaleTarget(rows0[j], target, targetFit)
      invariant forall j :: i <= j < rows.Length ==> rows[j] == rows0[j]
    {
      rows[i] := ScaleTarget(rows[i], target, targetFit);
      i := i + 1;
    }
  }

  /**
   * The scaler object.  `fitted` is the target's fitted transform, absent
   * until the first successful `Transform`; `Transform` updates train and test
   * in place.
   */
  class StandardScaler {
    var fitted: Option<Standardizer>

    constructor ()
      ensures fitted == None
    {
      fitted := None;
    }

    /**
     * Train's numeric columns are fitted and standardised first, then test's
     * with train's fit, then train's target with a fit of its own.  Without a
     * train row or a numeric column the first fit raises and nothing changes;
     * without a test row the second step raises after train's numeric columns
     * were already written.  `ok` is false when the library raises.
     */
    method Transform(train: array<Row>, test: array<Row>, predictors: seq<string>,
                     target: string, fit: Fitter) returns (ok: bool)
      requires train != test
      modifies this, train, test
      ensures ok == CanScale(old(train[..]), old(test[..]), predictors, target)
      ensures ok ==> var s := Standardised(old(train[..]), old(test[..]), predictors, target, fit);
              train[..] == s.train && test[..] == s.test && fitted == Some(s.targetFit)
      ensures !ok ==> fitted == old(fitted) && test[..] == old(test[..])
      ensures !ok ==>
        var numeric := NumericColumns(old(train[..]), predictors, target);
        train[..] == if train.Length > 0 && numeric != []
                     then ScaleNumericRows(old(train[..]), NumericFits(old(train[..]), numeric, fit))
                     else old(train[..])
    {
      var numeric := NumericColumns(train[..], predictors, target);
      var fits := NumericFits(train[..], numeric, fit);
      var targetFit := fit(ColumnValues(train[..], target));
      if train.Length == 0 || numeric == [] {
        return false;
      }
      ScaleNumericInPlace(train, fits);
      if test.Length == 0 {
        return false;
      }
      ScaleNumericInPlace(test, fits);
      ScaleTargetInPlace(train, target, targetFit);
      fitted := Some(targetFit);
      ok := true;
    }

    /** Maps a standardised prediction back to the target's units; fails before any `Transform`. */
    method Inverse(prediction: real) returns (r: Option<real>)
      ensures fitted.None? ==> r.None?
      ensures fitted.Some? ==> r == Some(Unapply(fitted.value, prediction))
      ensures forall y :: fitted.Some? && prediction == Apply(fitted.value, y) ==> r == Some(y)
    {
      if fitted.None? {
        return None;
      }
      r := Some(Unapply(fitted.value, prediction));
      RoundTripAll(fitted.value);
    }
  }

  lemma RoundTripAll(s: Standardizer)
    ensures forall y :: Unapply(s, Apply(s, y)) == y
  {
    forall y { RoundTrip(s, y); }
  }
}
