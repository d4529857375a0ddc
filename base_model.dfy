/**
 * The walk-forward engine of the model base class: dataset preparation,
 * resolution of predictor specifications, extraction of the train and test
 * slices of one (day, hour) cell, the grid of tasks a run enumerates, and the
 * record each task produces.
 */
module BaseModel {
  import opened Wrappers
  import opened Text
  import opened Dataset
  import StandardScaler

  // ---------------------------------------------------------------------
  // Dataset preparation

  /** The name of the i-th lead of the target, `{target}_d+{i}`. */
  function LeadName(target: string, i: nat): string {
    target + "_d+" + NatToString(i)
  }

  lemma LeadNameInjective(target: string, i: nat, j: nat)
    ensures LeadName(target, i) == LeadName(target, j) <==> i == j
  {
    var p := target + "_d+";
    if LeadName(target, i) == LeadName(target, j) {
      assert NatToString(i) == LeadName(target, i)[|p|..];
      assert NatToString(j) == LeadName(target, j)[|p|..];
      NatToStringInjective(i, j);
    }
  }

  /** A lead column never collides with the columns preparation adds after the leads. */
  lemma LeadNameNotReserved(target: string, i: nat)
    ensures LeadName(target, i) !in {"numeric_index", "hour", "ones", "day"}
  {
    var n := LeadName(target, i);
    assert n[|target| + 2] == '+';
    assert '+' in n;
    assert '+' !in "numeric_index" && '+' !in "hour" && '+' !in "ones" && '+' !in "day";
  }

  /** The day ordinal of the row at 0-based position r: its 1-based number, integer-divided by 24. */
  function DayOrdinal(r: nat): nat {
    (r + 1) / 24
  }

  lemma DayOrdinalMonotone(r: nat, s: nat)
    requires r <= s
    ensures DayOrdinal(r) <= DayOrdinal(s)
  {
  }

  /**
   * Ordinal 0 covers the first 23 rows; every later ordinal k covers exactly
   * the 24 consecutive rows 24k - 1 .. 24k + 22.
   */
  lemma DayOrdinalCover(r: nat, k: nat)
    ensures DayOrdinal(r) == k <==>
      if k == 0 then r <= 22 else 24 * k - 1 <= r <= 24 * k + 22
  {
  }

  /** The value `shift(-24 i)` puts in lead column i at row r: the target 24 i rows later, missing past the end. */
  function Lead(data: seq<Stamped>, target: string, r: nat, i: nat): Option<real> {
    if r + 24 * i < |data| then Cell(data[r + 24 * i].cols, target) else None
  }

  ghost predicate IsLeadName(target: string, horizon: nat, k: string) {
    exists i :: 1 <= i <= horizon && k == LeadName(target, i)
  }

  /** The columns preparation adds, besides the leads. */
  const Added: set<string> := {"numeric_index", "hour", "ones", "day"}

  /** The columns of row r once the first n leads are assigned, one assignment after another. */
  function WithLeads(data: seq<Stamped>, target: string, r: nat, n: nat): Cols
    requires r < |data|
  {
    if n == 0 then data[r].cols
    else WithLeads(data, target, r, n - 1)[LeadName(target, n) := Lead(data, target, r, n)]
  }

  /**
   * After n lead assignments, lead i (1 <= i <= n) holds the target 24 i rows
   * later, every other column is as it was, and no other column appeared.
   */
  lemma {:induction false} WithLeadsCells(data: seq<Stamped>, target: string, r: nat, n: nat)
    requires r < |data|
    ensures forall i :: 1 <= i <= n ==>
      Cell(WithLeads(data, target, r, n), LeadName(target, i)) == Lead(data, target, r, i)
    ensures forall k :: !IsLeadName(target, n, k) ==>
      (k in WithLeads(data, target, r, n) <==> k in data[r].cols) &&
      Cell(WithLeads(data, target, r, n), k) == Cell(data[r].cols, k)
    ensures forall k :: k in WithLeads(data, target, r, n) <==> k in data[r].cols || IsLeadName(target, n, k)
  {
    if n > 0 {
      WithLeadsCells(data, target, r, n - 1);
      var prev, ln := WithLeads(data, target, r, n - 1), LeadName(target, n);
      assert WithLeads(data, target, r, n) == prev[ln := Lead(data, target, r, n)];
      forall i | 1 <= i <= n
        ensures Cell(WithLeads(data, target, r, n), LeadName(target, i)) == Lead(data, target, r, i)
      {
        if i < n {
          LeadNameInjective(target, i, n);
        }
      }
      forall k
        ensures IsLeadName(target, n, k) <==> IsLeadName(target, n - 1, k) || k == LeadName(target, n)
      {
        if IsLeadName(target, n, k) && k != LeadName(target, n) {
          var i :| 1 <= i <= n && k == LeadName(target, i);
          assert IsLeadName(target, n - 1, k);
        }
      }
      forall k | !IsLeadName(target, n, k)
        ensures (k in WithLeads(data, target, r, n) <==> k in data[r].cols)
        ensures Cell(WithLeads(data, target, r, n), k) == Cell(data[r].cols, k)
      {
        assert !IsLeadName(target, n - 1, k) && k != ln;
      }
    }
  }

  /** What preparation promises about one row. */
  ghost predicate Prepared(row: Row, data: seq<Stamped>, target: string, horizon: nat, r: nat)
    requires r < |data|
  {
    && row.hour == data[r].hour && row.day == DayOrdinal(r)
    && (forall i :: 1 <= i <= horizon ==> Cell(row.cols, LeadName(target, i)) == Lead(data, target, r, i))
    && Cell(row.cols, "numeric_index") == Some((r + 1) as real)
    && Cell(row.cols, "hour") == Some(data[r].hour as real)
    && Cell(row.cols, "ones") == Some(1.0)
    && Cell(row.cols, "day") == Some(DayOrdinal(r) as real)
    && (forall k :: k !in Added && !IsLeadName(target, horizon, k) ==>
         (k in row.cols <==> k in data[r].cols) && Cell(row.cols, k) == Cell(data[r].cols, k))
    && (forall k :: k in row.cols <==> k in data[r].cols || k in Added || IsLeadName(target, horizon, k))
  }

  function AddFixed(cols: Cols, r: nat, hour: int): Cols {
    cols["numeric_index" := Some((r + 1) as real)]
        ["hour" := Some(hour as real)]
        ["ones" := Some(1.0)]
        ["day" := Some(DayOrdinal(r) as real)]
  }

  lemma PreparedRow(data: seq<Stamped>, target: string, horizon: nat, r: nat)
    requires r < |data|
    ensures Prepared(Row(data[r].hour, DayOrdinal(r), AddFixed(WithLeads(data, target, r, horizon), r, data[r].hour)),
                     data, target, horizon, r)
  {
    WithLeadsCells(data, target, r, horizon);
    forall i | 1 <= i <= horizon
      ensures LeadName(target, i) !in Added
    {
      LeadNameNotReserved(target, i);
    }
  }

  /**
   * `preprocess(data, horizon)` on a copy of the rows: adds the leads
   * `{target}_d+1 .. {target}_d+horizon`, then `numeric_index` (the 1-based
   * row number), `hour`, `ones` and `day` (the day ordinal), in that order.
   */
  /** The prepared rows: leads first, then the fixed columns, row by row. */
  function PreparedRows(data: seq<Stamped>, target: string, horizon: nat): (rows: seq<Row>)
    ensures |rows| == |data|
  {
    seq(|data|, r requires 0 <= r < |data| =>
      Row(data[r].hour, DayOrdinal(r), AddFixed(WithLeads(data, target, r, horizon), r, data[r].hour)))
  }

  method Preprocess(data: seq<Stamped>, target: string, horizon: nat) returns (rows: seq<Row>)
    ensures rows == PreparedRows(data, target, horizon)
    ensures |rows| == |data|
    ensures forall r :: 0 <= r < |data| ==> Prepared(rows[r], data, target, horizon, r)
  {
    rows := seq(|data|, r requires 0 <= r < |data| => Row(data[r].hour, DayOrdinal(r), data[r].cols));
    for i := 1 to horizon + 1
      invariant |rows| == |data|
      invariant forall r :: 0 <= r < |data| ==>
        rows[r] == Row(data[r].hour, DayOrdinal(r), WithLeads(data, target, r, i - 1))
    {
      var name := LeadName(target, i);
      rows := seq(|rows|, r requires 0 <= r < |rows| =>
        rows[r].(cols := rows[r].cols[name := Lead(data, target, r, i)]));
    }
    rows := seq(|rows|, r requires 0 <= r < |rows| =>
      rows[r].(cols := AddFixed(rows[r].cols, r, rows[r].hour)));
    forall r | 0 <= r < |data|
      ensures Prepared(rows[r], data, target, horizon, r)
    {
      PreparedRow(data, target, horizon, r);
    }
  }

  // ---------------------------------------------------------------------
  // Predictor specifications

  /** One predictor: a name template, or a callable applied to the run context `{'horizon': h}`. */
  datatype PredictorItem = Template(text: string) | Computed(apply: nat -> string)

  /** A list of predictors, or a callable producing that list from the run context. */
  datatype PredictorSpec = Listed(items: seq<PredictorItem>) | Generated(expand: nat -> seq<PredictorItem>)

  const Placeholder: string := "{horizon}"

  function Items(spec: PredictorSpec, horizon: nat): seq<PredictorItem> {
    match spec
    case Listed(items) => items
    case Generated(expand) => expand(horizon)
  }

  function Resolve(item: PredictorItem, horizon: nat): string {
    match item
    case Template(text) => Replace(text, Placeholder, NatToString(horizon))
    case Computed(apply) => apply(horizon)
  }

  /**
   * `processPredictors(predictors, horizon)`: expands a callable list, then
   * resolves every entry in order.
   */
  method ProcessPredictors(spec: PredictorSpec, horizon: nat) returns (names: seq<string>)
    ensures |names| == |Items(spec, horizon)|
    ensures forall i :: 0 <= i < |names| ==> names[i] == Resolve(Items(spec, horizon)[i], horizon)
  {
    var items := Items(spec, horizon);
    names := [];
    for i := 0 to |items|
      invariant |names| == i
      invariant forall j :: 0 <= j < i ==> names[j] == Resolve(items[j], horizon)
    {
      names := names + [Resolve(items[i], horizon)];
    }
  }

  /** A template without the placeholder is kept verbatim, whatever other braces it holds. */
  lemma TemplateWithoutPlaceholder(text: string, horizon: nat)
    requires !Contains(text, Placeholder)
    ensures Resolve(Template(text), horizon) == text
  {
    ReplaceAbsent(text, Placeholder, NatToString(horizon));
  }

  /** Every occurrence of the placeholder is substituted. */
  lemma TemplateResolved(text: string, horizon: nat)
    ensures !Contains(Resolve(Template(text), horizon), Placeholder)
  {
    var digits := NatToString(horizon);
    forall a, b | 0 <= a < |digits| && 0 <= b < |Placeholder|
      ensures digits[a] != Placeholder[b]
    {
      assert IsDigit(digits[a]);
    }
    ReplaceRemovesAll(text, Placeholder, digits);
  }

  // ---------------------------------------------------------------------
  // Train and test slices

  predicate Selected(row: Row, hour: int, lo: int, hi: int) {
    row.hour == hour && lo <= row.day < hi
  }

  /** The rows satisfying the boolean mask, in dataset order. */
  function Filter(data: seq<Row>, hour: int, lo: int, hi: int): seq<Row> {
    if data == [] then []
    else
      var last := data[|data| - 1];
      Filter(data[..|data| - 1], hour, lo, hi) + (if Selected(last, hour, lo, hi) then [last] else [])
  }

  /** The positions of the rows the mask keeps. */
  function Kept(data: seq<Row>, hour: int, lo: int, hi: int): seq<nat> {
    if data == [] then []
    else
      Kept(data[..|data| - 1], hour, lo, hi) + (if Selected(data[|data| - 1], hour, lo, hi) then [|data| - 1] else [])
  }

  /**
   * The filter keeps exactly the selected rows, in dataset order: its k-th row
   * is the row at the k-th kept position, and kept positions increase.
   */
  lemma {:induction false} FilterKept(data: seq<Row>, hour: int, lo: int, hi: int)
    ensures var f, ks := Filter(data, hour, lo, hi), Kept(data, hour, lo, hi);
      && |f| == |ks|
      && (forall k :: 0 <= k < |ks| ==> ks[k] < |data| && f[k] == data[ks[k]])
      && (forall k, l :: 0 <= k < l < |ks| ==> ks[k] < ks[l])
      && (forall i :: 0 <= i < |data| ==> (i in ks <==> Selected(data[i], hour, lo, hi)))
  {
    if data != [] {
      var n := |data| - 1;
      var init := data[..n];
      FilterKept(init, hour, lo, hi);
      var f0, k0 := Filter(init, hour, lo, hi), Kept(init, hour, lo, hi);
      var f, ks := Filter(data, hour, lo, hi), Kept(data, hour, lo, hi);
      var keep := Selected(data[n], hour, lo, hi);
      assert f == f0 + (if keep then [data[n]] else []);
      assert ks == k0 + (if keep then [n] else []);
      forall k | 0 <= k < |ks|
        ensures ks[k] < |data| && f[k] == data[ks[k]]
      {
        if k < |k0| {
          assert ks[k] == k0[k] && f[k] == f0[k] && init[k0[k]] == data[k0[k]];
        }
      }
      forall i | 0 <= i < |data|
        ensures i in ks <==> Selected(data[i], hour, lo, hi)
      {
        if i < n {
          assert init[i] == data[i];
          assert i in ks <==> i in k0;
        }
      }
    }
  }

  lemma {:induction false} FilterSelected(data: seq<Row>, hour: int, lo: int, hi: int)
    ensures forall row :: row in Filter(data, hour, lo, hi) ==> Selected(row, hour, lo, hi) && row in data
  {
    if data != [] {
      FilterSelected(data[..|data| - 1], hour, lo, hi);
    }
  }

  /** The first day of the training window, pushed back by the horizon so no future target is used. */
  function WindowStart(datasetOffset: int, trainingWindow: int, horizon: nat, dayInTestingPeriod: int): int {
    datasetOffset - trainingWindow - horizon + dayInTestingPeriod
  }

  /** One past the window's last day, the day being forecast. */
  function WindowEnd(datasetOffset: int, dayInTestingPeriod: int): int {
    datasetOffset + dayInTestingPeriod + 1
  }

  /** `head(-n)` for n >= 1: all but the last n rows, empty when there are no more than n. */
  function DropLast(s: seq<Row>, n: nat): seq<Row> {
    if |s| <= n then [] else s[..|s| - n]
  }

  /** `tail(1)`: the last row, empty for an empty frame. */
  function LastOne(s: seq<Row>): seq<Row> {
    if s == [] then [] else [s[|s| - 1]]
  }

  datatype Slices = Slices(test: seq<Row>, train: seq<Row>)

  function ExtractTrainAndTest(trainingWindow: int, data: seq<Row>, hour: int, dayInTestingPeriod: int,
                               datasetOffset: int, horizon: nat): Slices
  {
    var f := Filter(data, hour, WindowStart(datasetOffset, trainingWindow, horizon, dayInTestingPeriod),
                    WindowEnd(datasetOffset, dayInTestingPeriod));
    Slices(LastOne(f), DropLast(f, 1 + horizon))
  }

  function Filtered(trainingWindow: int, data: seq<Row>, hour: int, dayInTestingPeriod: int,
                    datasetOffset: int, horizon: nat): seq<Row>
  {
    Filter(data, hour, WindowStart(datasetOffset, trainingWindow, horizon, dayInTestingPeriod),
           WindowEnd(datasetOffset, dayInTestingPeriod))
  }

  /**
   * Test holds at most one row, the last filtered row, and is empty exactly
   * when nothing was filtered; train is the prefix of the filtered rows that
   * leaves out the last 1 + horizon of them.
   */
  lemma ExtractShape(trainingWindow: int, data: seq<Row>, hour: int, dayInTestingPeriod: int,
                     datasetOffset: int, horizon: nat)
    ensures var f := Filtered(trainingWindow, data, hour, dayInTestingPeriod, datasetOffset, horizon);
      var s := ExtractTrainAndTest(trainingWindow, data, hour, dayInTestingPeriod, datasetOffset, horizon);
      && |s.test| <= 1
      && (|s.test| == 0 <==> |f| == 0)
      && (|s.test| == 1 ==> s.test[0] == f[|f| - 1])
      && |s.train| == (if |f| <= 1 + horizon then 0 else |f| - 1 - horizon)
      && s.train == f[..|s.train|]
  {
  }

  /** Every row of both slices has the cell's hour and a day inside the window, and comes from the dataset. */
  lemma ExtractRowsInWindow(trainingWindow: int, data: seq<Row>, hour: int, dayInTestingPeriod: int,
                            datasetOffset: int, horizon: nat)
    ensures var s := ExtractTrainAndTest(trainingWindow, data, hour, dayInTestingPeriod, datasetOffset, horizon);
      var lo, hi := WindowStart(datasetOffset, trainingWindow, horizon, dayInTestingPeriod),
                    WindowEnd(datasetOffset, dayInTestingPeriod);
      forall row :: row in s.test + s.train ==> Selected(row, hour, lo, hi) && row in data
  {
    var lo, hi := WindowStart(datasetOffset, trainingWindow, horizon, dayInTestingPeriod),
                  WindowEnd(datasetOffset, dayInTestingPeriod);
    FilterSelected(data, hour, lo, hi);
  }

  /** Strictly increasing days grow by at least one per position. */
  lemma {:induction false} IncreasingGap(f: seq<Row>, i: nat, j: nat)
    requires forall a, b :: 0 <= a < b < |f| ==> f[a].day < f[b].day
    requires i <= j < |f|
    ensures f[j].day - f[i].day >= j - i
  {
    if i < j {
      IncreasingGap(f, i, j - 1);
    }
  }

  /**
   * No lookahead: when the filtered rows have strictly increasing days, every
   * train row lies at least 1 + horizon days before the test row.
   */
  lemma NoLookahead(trainingWindow: int, data: seq<Row>, hour: int, dayInTestingPeriod: int,
                    datasetOffset: int, horizon: nat)
    requires var f := Filtered(trainingWindow, data, hour, dayInTestingPeriod, datasetOffset, horizon);
      forall a, b :: 0 <= a < b < |f| ==> f[a].day < f[b].day
    ensures var s := ExtractTrainAndTest(trainingWindow, data, hour, dayInTestingPeriod, datasetOffset, horizon);
      forall k :: 0 <= k < |s.train| ==> s.train[k].day <= s.test[0].day - (1 + horizon)
  {
    var f := Filtered(trainingWindow, data, hour, dayInTestingPeriod, datasetOffset, horizon);
    var s := ExtractTrainAndTest(trainingWindow, data, hour, dayInTestingPeriod, datasetOffset, horizon);
    forall k | 0 <= k < |s.train|
      ensures s.train[k].day <= s.test[0].day - (1 + horizon)
    {
      IncreasingGap(f, k, |f| - 1);
    }
  }

  /**
   * When the dataset's days never decrease and it holds a row of the cell's
   * hour on the forecast day, the test slice is exactly one row of that day.
   */
  lemma TestRowIsForecastDay(trainingWindow: int, data: seq<Row>, hour: int, dayInTestingPeriod: int,
                             datasetOffset: int, horizon: nat, j: nat)
    requires forall a, b :: 0 <= a < b < |data| ==> data[a].day <= data[b].day
    requires trainingWindow + horizon >= 0
    requires j < |data| && data[j].hour == hour && data[j].day == datasetOffset + dayInTestingPeriod
    ensures var s := ExtractTrainAndTest(trainingWindow, data, hour, dayInTestingPeriod, datasetOffset, horizon);
      |s.test| == 1 && s.test[0].day == datasetOffset + dayInTestingPeriod && s.test[0].hour == hour
  {
    var lo, hi := WindowStart(datasetOffset, trainingWindow, horizon, dayInTestingPeriod),
                  WindowEnd(datasetOffset, dayInTestingPeriod);
    var f, ks := Filter(data, hour, lo, hi), Kept(data, hour, lo, hi);
    FilterKept(data, hour, lo, hi);
    assert Selected(data[j], hour, lo, hi);
    assert j in ks;
    var n := |ks| - 1;
    var p :| 0 <= p < |ks| && ks[p] == j;
    assert ks[p] <= ks[n];
    assert f[n] == data[ks[n]];
  }

  // ---------------------------------------------------------------------
  // The task grid

  datatype GridCell = GridCell(day: nat, horizon: nat, hour: nat)

  /** Lexicographic order on (dayInTestingPeriod, currentHorizon, hour). */
  predicate Before(a: GridCell, b: GridCell) {
    a.day < b.day || (a.day == b.day && (a.horizon < b.horizon || (a.horizon == b.horizon && a.hour < b.hour)))
  }

  predicate StrictlySorted(cells: seq<GridCell>) {
    forall i, j :: 0 <= i < j < |cells| ==> Before(cells[i], cells[j])
  }

  function HourRow(day: nat, horizon: nat): (r: seq<GridCell>)
    ensures |r| == 24
  {
    seq(24, h requires 0 <= h < 24 => GridCell(day, horizon, h))
  }

  /** The cells of one day for current horizons 1 .. n. */
  function HorizonBlock(day: nat, n: nat): seq<GridCell> {
    if n == 0 then [] else HorizonBlock(day, n - 1) + HourRow(day, n)
  }

  /** The cells of days 0 .. days - 1, in the order the nested loops visit them. */
  function Grid(days: nat, horizon: nat): seq<GridCell> {
    if days == 0 then [] else Grid(days - 1, horizon) + HorizonBlock(days - 1, horizon)
  }

  /** `range(testingWindow - datasetOffset + 1 - horizon)`: no days when the bound is not positive. */
  function DaysToTest(datasetOffset: int, testingWindow: int, horizon: nat): nat {
    var n := testingWindow - datasetOffset + 1 - horizon;
    if n <= 0 then 0 else n
  }

  /** One day's block holds exactly that day's 24 n cells of horizons 1 .. n. */
  lemma {:induction false} HorizonBlockMembers(day: nat, n: nat)
    ensures |HorizonBlock(day, n)| == 24 * n
    ensures forall c :: c in HorizonBlock(day, n) <==> c.day == day && 1 <= c.horizon <= n && c.hour < 24
  {
    if n > 0 {
      HorizonBlockMembers(day, n - 1);
      var a, b := HorizonBlock(day, n - 1), HourRow(day, n);
      forall c: GridCell | c.day == day && c.horizon == n && c.hour < 24
        ensures c in b
      {
        assert b[c.hour] == c;
      }
      assert forall c :: c in a + b <==> c in a || c in b;
    }
  }

  lemma {:induction false} HorizonBlockCells(day: nat, n: nat)
    ensures |HorizonBlock(day, n)| == 24 * n
    ensures forall c :: c in HorizonBlock(day, n) <==> c.day == day && 1 <= c.horizon <= n && c.hour < 24
    ensures StrictlySorted(HorizonBlock(day, n))
  {
    HorizonBlockMembers(day, n);
    if n > 0 {
      HorizonBlockCells(day, n - 1);
      var a, b := HorizonBlock(day, n - 1), HourRow(day, n);
      assert forall i, j :: 0 <= i < |a| && 0 <= j < |b| ==> a[i] in a && Before(a[i], b[j]);
    }
  }

  /** The grid has days * horizon * 24 cells. */
  lemma {:induction false} GridSize(days: nat, horizon: nat)
    ensures |Grid(days, horizon)| == days * horizon * 24
  {
    if days > 0 {
      GridSize(days - 1, horizon);
      HorizonBlockMembers(days - 1, horizon);
      calc {
        |Grid(days, horizon)|;
        (days - 1) * horizon * 24 + 24 * horizon;
        { assert (days - 1) * horizon * 24 == days * horizon * 24 - horizon * 24; }
        days * horizon * 24;
      }
    }
  }

  /** The grid holds exactly the cells with day < days, horizon in 1 .. horizon and hour < 24. */
  lemma {:induction false} GridMembers(days: nat, horizon: nat, c: GridCell)
    ensures c in Grid(days, horizon) <==> c.day < days && 1 <= c.horizon <= horizon && c.hour < 24
  {
    if days > 0 {
      var a, b := Grid(days - 1, horizon), HorizonBlock(days - 1, horizon);
      assert Grid(days, horizon) == a + b;
      HorizonBlockMembers(days - 1, horizon);
      assert c in b <==> c.day == days - 1 && 1 <= c.horizon <= horizon && c.hour < 24;
      GridMembers(days - 1, horizon, c);
      assert c in a + b <==> c in a || c in b;
    }
  }

  /** The grid is strictly ordered by (day, horizon, hour), so no cell occurs twice. */
  lemma {:induction false} GridSorted(days: nat, horizon: nat)
    ensures StrictlySorted(Grid(days, horizon))
  {
    if days > 0 {
      GridSorted(days - 1, horizon);
      HorizonBlockCells(days - 1, horizon);
      var a, b := Grid(days - 1, horizon), HorizonBlock(days - 1, horizon);
      forall i | 0 <= i < |a|
        ensures a[i].day < days - 1
      {
        GridMembers(days - 1, horizon, a[i]);
      }
      assert forall i, j :: 0 <= i < |a| && 0 <= j < |b| ==> b[j] in b && Before(a[i], b[j]);
    }
  }

  /** The model's settings a run reads. */
  datatype Config = Config(scalable: PredictorSpec, other: PredictorSpec, target: string, trainingWindow: int)

  /** One task: the slices of a cell, the cell itself and its resolved predictors. */
  datatype Task = Task(test: seq<Row>, train: seq<Row>, dayInTestingPeriod: nat, currentHorizon: nat,
                       hour: nat, scalable: seq<string>, other: seq<string>)

  function ResolveAll(spec: PredictorSpec, horizon: nat): (r: seq<string>)
    ensures |r| == |Items(spec, horizon)|
  {
    var items := Items(spec, horizon);
    seq(|items|, i requires 0 <= i < |items| => Resolve(items[i], horizon))
  }

  /**
   * The task of a cell.  Extraction uses the run-level horizon, not the
   * cell's current horizon; predictors are resolved with the current horizon.
   */
  function MakeTask(cfg: Config, data: seq<Row>, datasetOffset: int, horizon: nat, c: GridCell): Task {
    var s := ExtractTrainAndTest(cfg.trainingWindow, data, c.hour, c.day, datasetOffset, horizon);
    Task(s.test, s.train, c.day, c.horizon, c.hour, ResolveAll(cfg.scalable, c.horizon), ResolveAll(cfg.other, c.horizon))
  }

  function TasksOf(cfg: Config, data: seq<Row>, datasetOffset: int, horizon: nat, cells: seq<GridCell>): (r: seq<Task>)
    ensures |r| == |cells|
  {
    seq(|cells|, k requires 0 <= k < |cells| => MakeTask(cfg, data, datasetOffset, horizon, cells[k]))
  }

  lemma TasksOfSnoc(cfg: Config, data: seq<Row>, datasetOffset: int, horizon: nat, cells: seq<GridCell>, c: GridCell)
    ensures TasksOf(cfg, data, datasetOffset, horizon, cells + [c])
         == TasksOf(cfg, data, datasetOffset, horizon, cells) + [MakeTask(cfg, data, datasetOffset, horizon, c)]
  {
  }

  /**
   * The task loops of `run`: for every day of the testing period, every
   * current horizon 1 .. horizon and every hour 0 .. 23, in that nesting, one
   * task.  Two tasks of the same day and hour carry the same slices.
   */
  method BuildTasks(cfg: Config, data: seq<Row>, datasetOffset: int, testingWindow: int, horizon: nat)
    returns (tasks: seq<Task>)
    ensures tasks == TasksOf(cfg, data, datasetOffset, horizon, Grid(DaysToTest(datasetOffset, testingWindow, horizon), horizon))
    ensures forall i, j ::
      0 <= i < |tasks| && 0 <= j < |tasks| &&
      tasks[i].dayInTestingPeriod == tasks[j].dayInTestingPeriod && tasks[i].hour == tasks[j].hour
      ==> tasks[i].test == tasks[j].test && tasks[i].train == tasks[j].train
  {
    var days := DaysToTest(datasetOffset, testingWindow, horizon);
    tasks := [];
    for d := 0 to days
      invariant tasks == TasksOf(cfg, data, datasetOffset, horizon, Grid(d, horizon))
    {
      for c := 1 to horizon + 1
        invariant tasks == TasksOf(cfg, data, datasetOffset, horizon, Grid(d, horizon) + HorizonBlock(d, c - 1))
      {
        for h := 0 to 24
          invariant tasks == TasksOf(cfg, data, datasetOffset, horizon,
                                     Grid(d, horizon) + HorizonBlock(d, c - 1) + HourRow(d, c)[..h])
        {
          var slices := ExtractTrainAndTest(cfg.trainingWindow, data, h, d, datasetOffset, horizon);
          var scalable := ProcessPredictors(cfg.scalable, c);
          var other := ProcessPredictors(cfg.other, c);
          assert scalable == ResolveAll(cfg.scalable, c);
          assert other == ResolveAll(cfg.other, c);
          ghost var cells := Grid(d, horizon) + HorizonBlock(d, c - 1) + HourRow(d, c)[..h];
          TasksOfSnoc(cfg, data, datasetOffset, horizon, cells, GridCell(d, c, h));
          assert HourRow(d, c)[..h + 1] == HourRow(d, c)[..h] + [GridCell(d, c, h)];
          assert cells + [GridCell(d, c, h)] == Grid(d, horizon) + HorizonBlock(d, c - 1) + HourRow(d, c)[..h + 1];
          tasks := tasks + [Task(slices.test, slices.train, d, c, h, scalable, other)];
        }
        assert HourRow(d, c)[..24] == HourRow(d, c);
        assert Grid(d, horizon) + HorizonBlock(d, c - 1) + HourRow(d, c) == Grid(d, horizon) + HorizonBlock(d, c);
      }
      assert Grid(d, horizon) + HorizonBlock(d, horizon) == Grid(d + 1, horizon);
    }
  }

  // ---------------------------------------------------------------------
  // Running the tasks

  /** What a strategy's `one(trainX, trainY, testX)` returns: a prediction (missing for NaN) and its parameters. */
  datatype ModelOutput = ModelOutput(prediction: Option<real>, params: seq<real>)

  /** A forecasting strategy; `None` when it raises. */
  type Strategy = (Matrix, Matrix, Matrix) -> Option<ModelOutput>

  datatype Record = Record(hour: nat, horizon: nat, dayInTestingPeriod: nat, prediction: Option<real>,
                           value: Option<real>, coefs: seq<real>, predictors: seq<string>)

  /** The library's raise inside the scaler, or the strategy's. */
  datatype WorkerError = ScalingFailed | ModelFailed

  /** The slices standardised for the lead column of the task's current horizon. */
  function TaskScaled(task: Task, target: string, fit: StandardScaler.Fitter): StandardScaler.Scaled {
    StandardScaler.Standardised(task.train, task.test, task.scalable, LeadName(target, task.currentHorizon), fit)
  }

  /** What the strategy answers on `trainX`, `trainY` and `testX` of the standardised slices. */
  function StrategyAnswer(task: Task, target: string, fit: StandardScaler.Fitter, one: Strategy): Option<ModelOutput> {
    var s := TaskScaled(task, target, fit);
    var predictors := task.scalable + task.other;
    one(Project(s.train, predictors), Project(s.train, [LeadName(target, task.currentHorizon)]), Project(s.test, predictors))
  }

  /**
   * `worker(args)`: standardises the task's slices for the lead column of the
   * current horizon, asks the strategy for a prediction and records it next to
   * the test row's target.  The prediction is recorded as the strategy
   * returns it, in the standardised units of the train target.
   */
  function Worker(task: Task, target: string, fit: StandardScaler.Fitter, one: Strategy): (r: Result<Record, WorkerError>)
    ensures !StandardScaler.CanScale(task.train, task.test, task.scalable, LeadName(target, task.currentHorizon))
            ==> r == Err(ScalingFailed)
    ensures r.Ok? <==>
      StandardScaler.CanScale(task.train, task.test, task.scalable, LeadName(target, task.currentHorizon)) &&
      StrategyAnswer(task, target, fit, one).Some?
    ensures r.Ok? ==>
      && r.value.hour == task.hour
      && r.value.horizon == task.currentHorizon
      && r.value.dayInTestingPeriod == task.dayInTestingPeriod
      && r.value.predictors == task.scalable + task.other
      && r.value.value == Cell(task.test[0].cols, LeadName(target, task.currentHorizon))
      && r.value.prediction == StrategyAnswer(task, target, fit, one).value.prediction
      && r.value.coefs == StrategyAnswer(task, target, fit, one).value.params
  {
    var predictors := task.scalable + task.other;
    var targetColumn := LeadName(target, task.currentHorizon);
    if !StandardScaler.CanScale(task.train, task.test, task.scalable, targetColumn) then Err(ScalingFailed)
    else
      var out := StrategyAnswer(task, target, fit, one);
      if out.None? then Err(ModelFailed)
      else
        StandardScaler.StandardisedCells(task.train, task.test, task.scalable, targetColumn, fit);
        var s := TaskScaled(task, target, fit);
        Ok(Record(task.hour, task.currentHorizon, task.dayInTestingPeriod, out.value.prediction,
                  Cell(s.test[0].cols, targetColumn), out.value.params, predictors))
  }

  /**
   * The pool's ordered map of a worker over the tasks, run one task after
   * another: the results in task order, or the error of the first task that fails.
   */
  function MapInOrder<T, R, E>(tasks: seq<T>, work: T -> Result<R, E>): (r: Result<seq<R>, E>)
    ensures r.Ok? <==> forall k :: 0 <= k < |tasks| ==> work(tasks[k]).Ok?
    ensures r.Ok? ==>
      && |r.value| == |tasks|
      && forall k :: 0 <= k < |tasks| ==> work(tasks[k]) == Ok(r.value[k])
    ensures r.Err? ==>
      exists k :: 0 <= k < |tasks| && work(tasks[k]) == Err(r.error) &&
        forall j :: 0 <= j < k ==> work(tasks[j]).Ok?
  {
    if tasks == [] then Ok([])
    else
      var first := work(tasks[0]);
      if first.Err? then Err(first.error)
      else
        var rest := MapInOrder(tasks[1..], work);
        if rest.Err? then
          ghost var k :| 0 <= k < |tasks| - 1 && work(tasks[1..][k]) == Err(rest.error) &&
            forall j :: 0 <= j < k ==> work(tasks[1..][j]).Ok?;
          assert work(tasks[k + 1]) == Err(rest.error);
          assert forall j :: 1 <= j < k + 1 ==> tasks[j] == tasks[1..][j - 1];
          Err(rest.error)
        else
          assert forall k :: 1 <= k < |tasks| ==> tasks[k] == tasks[1..][k - 1];
          Ok([first.value] + rest.value)
  }

  function RunWorkers(tasks: seq<Task>, target: string, fit: StandardScaler.Fitter, one: Strategy)
    : Result<seq<Record>, WorkerError>
  {
    MapInOrder(tasks, t => Worker(t, target, fit, one))
  }

  /** The ordered map of the worker: every task's record in order, or the first failing task's error. */
  lemma RunWorkersSpec(tasks: seq<Task>, target: string, fit: StandardScaler.Fitter, one: Strategy)
    ensures var r := RunWorkers(tasks, target, fit, one);
      && (r.Ok? <==> forall k :: 0 <= k < |tasks| ==> Worker(tasks[k], target, fit, one).Ok?)
      && (r.Ok? ==> |r.value| == |tasks|)
      && (r.Ok? ==> forall k :: 0 <= k < |tasks| ==> Worker(tasks[k], target, fit, one) == Ok(r.value[k]))
      && (r.Err? ==> exists k :: 0 <= k < |tasks| && Worker(tasks[k], target, fit, one) == Err(r.error)
                       && forall j :: 0 <= j < k ==> Worker(tasks[j], target, fit, one).Ok?)
  {
    var work := t => Worker(t, target, fit, one);
    assert forall k :: 0 <= k < |tasks| ==> work(tasks[k]) == Worker(tasks[k], target, fit, one);
  }

  datatype RunError = UnknownTimestamp | TaskFailed(error: WorkerError)

  /** The tasks of a run whose period bounds are the rows at the two positions. */
  function RunTasks(cfg: Config, horizon: nat, data: seq<Stamped>, startRow: nat, endRow: nat): seq<Task>
    requires startRow < |data| && endRow < |data|
  {
    var offset, window := DayOrdinal(startRow), DayOrdinal(endRow);
    TasksOf(cfg, PreparedRows(data, cfg.target, horizon), offset, horizon,
            Grid(DaysToTest(offset, window, horizon), horizon))
  }

  /**
   * `run(horizon, data, testPeriodStart, testPeriodEnd)`.  The two period
   * bounds are given as the positions of their rows; the day ordinals of those
   * rows are the dataset offset and the testing window.  The run succeeds
   * exactly when every task's worker does, and then holds their records in
   * grid order; otherwise it fails with the first failing task's error.
   */
  method Run(cfg: Config, horizon: nat, data: seq<Stamped>, startRow: nat, endRow: nat,
             fit: StandardScaler.Fitter, one: Strategy) returns (r: Result<seq<Record>, RunError>)
    ensures startRow >= |data| || endRow >= |data| ==> r == Err(UnknownTimestamp)
    ensures startRow < |data| && endRow < |data| ==>
      var tasks := RunTasks(cfg, horizon, data, startRow, endRow);
      && (r.Ok? <==> forall k :: 0 <= k < |tasks| ==> Worker(tasks[k], cfg.target, fit, one).Ok?)
      && (r.Ok? ==> |r.value| == |tasks|)
      && (r.Ok? ==> forall k :: 0 <= k < |tasks| ==> Worker(tasks[k], cfg.target, fit, one) == Ok(r.value[k]))
      && (r.Err? ==> r.error.TaskFailed?)
      && (r.Err? ==> exists k :: 0 <= k < |tasks| && Worker(tasks[k], cfg.target, fit, one) == Err(r.error.error)
                       && forall j :: 0 <= j < k ==> Worker(tasks[j], cfg.target, fit, one).Ok?)
    ensures r.Ok? ==>
      var cells := Grid(DaysToTest(DayOrdinal(startRow), DayOrdinal(endRow), horizon), horizon);
      && |r.value| == DaysToTest(DayOrdinal(startRow), DayOrdinal(endRow), horizon) * horizon * 24
      && |r.value| == |cells|
      && forall k :: 0 <= k < |cells| ==>
           r.value[k].dayInTestingPeriod == cells[k].day &&
           r.value[k].horizon == cells[k].horizon &&
           r.value[k].hour == cells[k].hour
  {
    var rows := Preprocess(data, cfg.target, horizon);
    if startRow >= |rows| || endRow >= |rows| {
      return Err(UnknownTimestamp);
    }
    var datasetOffset := rows[startRow].day;
    var testingWindow := rows[endRow].day;
    var tasks := BuildTasks(cfg, rows, datasetOffset, testingWindow, horizon);
    assert tasks == RunTasks(cfg, horizon, data, startRow, endRow);
    var results := RunWorkers(tasks, cfg.target, fit, one);
    RunWorkersSpec(tasks, cfg.target, fit, one);
    if results.Err? {
      return Err(TaskFailed(results.error));
    }
    GridSize(DaysToTest(datasetOffset, testingWindow, horizon), horizon);
    r := Ok(results.value);
  }
}
