/**
 * The calendar transformation: weekday, month and quarter information and
 * holidays added to a frame indexed by time stamps, each as one-hot
 * columns, as one column of names or as one column of numbers.
 */
module CalendarTransformation {
  import opened Wrappers
  import opened Text
  import opened Frame
  import opened CalendarEncoding

  /** The dummy types the configuration accepts; `None` stands for no encoding. */
  datatype Mode = OneHot | ListMode | NumberMode

  datatype Calendar = Calendar(
    weekly: Option<Mode>, monthly: Option<Mode>, quarterly: Option<Mode>,
    countryCode: string, holidays: Option<Mode>)

  /** The constructor's defaults: weekly one-hot columns and nothing else. */
  function Default(): (c: Calendar)
    ensures c.weekly == Some(OneHot) && c.monthly.None? && c.quarterly.None? && c.holidays.None?
    ensures c.countryCode == ""
  {
    Calendar(Some(OneHot), None, None, "", None)
  }

  /** `_create_is_list`. */
  function IsList(names: seq<string>): (r: seq<string>)
    ensures |r| == |names|
    ensures forall i :: 0 <= i < |names| ==> r[i] == "is_" + names[i]
  {
    seq(|names|, i requires 0 <= i < |names| => "is_" + names[i])
  }

  /** Prefixing keeps distinct names distinct. */
  lemma IsListDistinct(names: seq<string>)
    requires Distinct(names)
    ensures Distinct(IsList(names))
  {
    forall i, j | 0 <= i < j < |names|
      ensures IsList(names)[i] != IsList(names)[j]
    {
      assert IsList(names)[i][3..] == names[i];
      assert IsList(names)[j][3..] == names[j];
    }
  }

  /** `_transform_template` on a frame: one-hot columns, or a single list or number column. */
  function Template(t: Table, mode: Option<Mode>, oneHotList: seq<string>, comparison: seq<int>,
                    columnName: string, listData: seq<Value>, numberData: seq<Value>): Table
  {
    match mode
    case None => t
    case Some(OneHot) => WithColumns(t, IndicatorUpdates(IsList(oneHotList), comparison, 1))
    case Some(ListMode) => Set(t, columnName, listData)
    case Some(NumberMode) => Set(t, columnName, numberData)
  }

  method TransformTemplate(df: DataFrame, mode: Option<Mode>, oneHotList: seq<string>, comparison: seq<int>,
                           columnName: string, listData: seq<Value>, numberData: seq<Value>)
    modifies df
    ensures df.Snapshot() == Template(old(df.Snapshot()), mode, oneHotList, comparison, columnName, listData, numberData)
  {
    if mode.Some? {
      match mode.value
      case OneHot =>
        df.AssignAll(IndicatorUpdates(IsList(oneHotList), comparison, 1));
      case ListMode =>
        df.Assign(columnName, listData);
      case NumberMode =>
        df.Assign(columnName, numberData);
    }
  }

  /** The k-th one-hot column (counting from 0) marks exactly the rows whose value is k + 1. */
  lemma TemplateOneHot(t: Table, oneHotList: seq<string>, comparison: seq<int>, columnName: string,
                       listData: seq<Value>, numberData: seq<Value>, k: nat, r: nat)
    requires Distinct(oneHotList) && k < |oneHotList| && r < |comparison|
    ensures Get(Template(t, Some(OneHot), oneHotList, comparison, columnName, listData, numberData), "is_" + oneHotList[k])
         == Some(IndicatorColumn(comparison, k + 1))
    ensures IndicatorColumn(comparison, k + 1)[r] == (if comparison[r] == k + 1 then Num(1.0) else Num(0.0))
  {
    IsListDistinct(oneHotList);
    IndicatorCells(t, IsList(oneHotList), comparison, 1, k);
  }

  /** List and number modes write the one column named `column_name`; no mode leaves the frame alone. */
  lemma TemplateSingleColumn(t: Table, mode: Option<Mode>, oneHotList: seq<string>, comparison: seq<int>,
                             columnName: string, listData: seq<Value>, numberData: seq<Value>, other: string)
    requires mode != Some(OneHot)
    requires other != columnName
    ensures mode.None? ==> Template(t, mode, oneHotList, comparison, columnName, listData, numberData) == t
    ensures mode == Some(ListMode) ==> Get(Template(t, mode, oneHotList, comparison, columnName, listData, numberData), columnName) == Some(listData)
    ensures mode == Some(NumberMode) ==> Get(Template(t, mode, oneHotList, comparison, columnName, listData, numberData), columnName) == Some(numberData)
    ensures Get(Template(t, mode, oneHotList, comparison, columnName, listData, numberData), other) == Get(t, other)
  {
    if mode.Some? {
      SetEffect(t, columnName, if mode == Some(ListMode) then listData else numberData);
    }
  }

  // The per-row inputs of the three template calls.

  function Months(days: seq<Day>): (r: seq<int>)
    ensures |r| == |days| && forall i :: 0 <= i < |days| ==> r[i] == days[i].month
  {
    seq(|days|, i requires 0 <= i < |days| => days[i].month)
  }

  function Quarters(days: seq<Day>): (r: seq<int>)
    ensures |r| == |days| && forall i :: 0 <= i < |days| ==> r[i] == days[i].quarter
  {
    seq(|days|, i requires 0 <= i < |days| => days[i].quarter)
  }

  /** `index.month_name()`. */
  function MonthNamesOf(days: seq<Day>): (r: seq<Value>)
    ensures |r| == |days| && forall i :: 0 <= i < |days| ==> r[i] == Str(MonthNames[days[i].month])
  {
    seq(|days|, i requires 0 <= i < |days| => Str(MonthNames[days[i].month]))
  }

  const QuarterNames: seq<string> := ["is_q1", "is_q2", "is_q3", "is_q4"]

  function Weekly(c: Calendar, t: Table, days: seq<Day>): Table {
    Template(t, c.weekly, DayNames, WeekdayNumbers(days), "weekday", WeekdayNames(days), Numbers(WeekdayNumbers(days)))
  }

  function Monthly(c: Calendar, t: Table, days: seq<Day>): Table {
    Template(t, c.monthly, MonthNames, Months(days), "month", MonthNamesOf(days), Numbers(Months(days)))
  }

  function Quarterly(c: Calendar, t: Table, days: seq<Day>): Table {
    Template(t, c.quarterly, QuarterNames, Quarters(days), "quarter", Numbers(Quarters(days)), Numbers(Quarters(days)))
  }

  /** `_transform_holidays`, with each row's holiday name given. */
  function Holidays(c: Calendar, t: Table, holidays: seq<Option<string>>): Table {
    match c.holidays
    case None => t
    case Some(OneHot) => WithColumns(t, HolidayUpdates(holidays))
    case Some(ListMode) => Set(t, "holiday_name", HolidayNames(holidays))
    case Some(NumberMode) => Set(t, "is_holiday", HolidayFlags(holidays))
  }

  method TransformHolidays(c: Calendar, df: DataFrame, holidays: seq<Option<string>>)
    modifies df
    ensures df.Snapshot() == Holidays(c, old(df.Snapshot()), holidays)
  {
    if c.holidays.Some? {
      match c.holidays.value
      case OneHot =>
        df.AssignAll(HolidayUpdates(holidays));
      case ListMode =>
        df.Assign("holiday_name", HolidayNames(holidays));
      case NumberMode =>
        df.Assign("is_holiday", HolidayFlags(holidays));
    }
  }

  /** `transform`: weekday, then month, then quarter, then holidays. */
  function TransformOf(c: Calendar, t: Table, days: seq<Day>): Table {
    Holidays(c, Quarterly(c, Monthly(c, Weekly(c, t, days), days), days), HolidaysOf(days))
  }

  /** `transform`, on a frame whose rows are described by `days`. */
  method Transform(c: Calendar, df: DataFrame, days: seq<Day>)
    requires |days| == |df.index|
    modifies df
    ensures df.Snapshot() == TransformOf(c, old(df.Snapshot()), days)
  {
    TransformTemplate(df, c.weekly, DayNames, WeekdayNumbers(days), "weekday", WeekdayNames(days), Numbers(WeekdayNumbers(days)));
    TransformTemplate(df, c.monthly, MonthNames, Months(days), "month", MonthNamesOf(days), Numbers(Months(days)));
    TransformTemplate(df, c.quarterly, QuarterNames, Quarters(days), "quarter", Numbers(Quarters(days)), Numbers(Quarters(days)));
    TransformHolidays(c, df, HolidaysOf(days));
  }

  /** No encoding configured: the frame comes back as it was. */
  lemma NothingConfigured(c: Calendar, t: Table, days: seq<Day>)
    requires c.weekly.None? && c.monthly.None? && c.quarterly.None? && c.holidays.None?
    ensures TransformOf(c, t, days) == t
  {
  }

  lemma DayNamesDistinct()
    ensures Distinct(DayNames)
  {
    forall i, j | 0 <= i < j < |DayNames|
      ensures DayNames[i] != DayNames[j]
    {
      assert i == 0 || i == 1 || i == 2 || i == 3 || i == 4 || i == 5;
      assert j == 1 || j == 2 || j == 3 || j == 4 || j == 5 || j == 6;
      assert DayNames[i][1] != DayNames[j][1] || DayNames[i][0] != DayNames[j][0];
    }
  }

  /** Weekly one-hot: column `is_<Day>` for the k-th day is 1 exactly on the rows of that weekday, so one of them is 1 per row. */
  lemma WeeklyOneHot(c: Calendar, t: Table, days: seq<Day>, k: nat, r: nat)
    requires c.weekly == Some(OneHot) && k < 7 && r < |days|
    ensures Get(Weekly(c, t, days), "is_" + DayNames[k]).Some?
    ensures |Get(Weekly(c, t, days), "is_" + DayNames[k]).value| == |days|
    ensures Get(Weekly(c, t, days), "is_" + DayNames[k]).value[r] == Indicator(days[r].dayOfWeek == k)
  {
    DayNamesDistinct();
    TemplateOneHot(t, DayNames, WeekdayNumbers(days), "weekday", WeekdayNames(days), Numbers(WeekdayNumbers(days)), k, r);
  }

  lemma MonthNamesDistinct()
    ensures Distinct(MonthNames)
  {
    forall i, j | 0 <= i < j < |MonthNames|
      ensures MonthNames[i] != MonthNames[j]
    {
      if i == 0 {
        assert |MonthNames[j]| > 0;
      } else {
        assert i == 1 || i == 2 || i == 3 || i == 4 || i == 5 || i == 6 || i == 7 || i == 8 || i == 9 || i == 10 || i == 11;
        assert j == 2 || j == 3 || j == 4 || j == 5 || j == 6 || j == 7 || j == 8 || j == 9 || j == 10 || j == 11 || j == 12;
        assert MonthNames[i][0] != MonthNames[j][0] || MonthNames[i][1] != MonthNames[j][1] || MonthNames[i][2] != MonthNames[j][2];
      }
    }
  }

  /**
   * Monthly one-hot as written: the names start with the empty entry of
   * `calendar.month_name`, so `is_` marks January, the column named after
   * month m marks month m + 1, and `is_December` is 0 on every row.
   */
  lemma MonthlyOneHotShifted(c: Calendar, t: Table, days: seq<Day>, m: nat, r: nat)
    requires c.monthly == Some(OneHot) && m <= 12 && r < |days|
    ensures Get(Monthly(c, t, days), "is_" + MonthNames[m]).Some?
    ensures |Get(Monthly(c, t, days), "is_" + MonthNames[m]).value| == |days|
    ensures Get(Monthly(c, t, days), "is_" + MonthNames[m]).value[r] == Indicator(days[r].month == m + 1)
    ensures m == 12 ==> Get(Monthly(c, t, days), "is_December").value[r] == Num(0.0)
    ensures m == 0 ==> Get(Monthly(c, t, days), "is_").value[r] == Indicator(days[r].month == 1)
  {
    MonthNamesDistinct();
    TemplateOneHot(t, MonthNames, Months(days), "month", MonthNamesOf(days), Numbers(Months(days)), m, r);
    assert "is_" + MonthNames[12] == "is_December";
    assert "is_" + MonthNames[0] == "is_";
  }

  /** Quarterly one-hot as written: the names already carry `is_`, so the columns are `is_is_q1` to `is_is_q4`, correctly paired. */
  lemma QuarterlyOneHotDoublePrefix(c: Calendar, t: Table, days: seq<Day>, q: nat, r: nat)
    requires c.quarterly == Some(OneHot) && 1 <= q <= 4 && r < |days|
    ensures "is_" + QuarterNames[q - 1] == "is_is_q" + NatToString(q)
    ensures Get(Quarterly(c, t, days), "is_is_q" + NatToString(q)).Some?
    ensures |Get(Quarterly(c, t, days), "is_is_q" + NatToString(q)).value| == |days|
    ensures Get(Quarterly(c, t, days), "is_is_q" + NatToString(q)).value[r] == Indicator(days[r].quarter == q)
  {
    assert Distinct(QuarterNames) by {
      forall i, j | 0 <= i < j < 4
        ensures QuarterNames[i] != QuarterNames[j]
      {
        assert QuarterNames[i][4] != QuarterNames[j][4];
      }
    }
    assert NatToString(q) == [DigitChar(q)];
    TemplateOneHot(t, QuarterNames, Quarters(days), "quarter", Numbers(Quarters(days)), Numbers(Quarters(days)), q - 1, r);
  }

  /** Holiday number mode: `is_holiday` is 1 exactly on the rows that have a holiday. */
  lemma HolidayNumber(c: Calendar, t: Table, holidays: seq<Option<string>>, r: nat)
    requires c.holidays == Some(NumberMode) && r < |holidays|
    ensures Get(Holidays(c, t, holidays), "is_holiday") == Some(HolidayFlags(holidays))
    ensures HolidayFlags(holidays)[r] == Num(if holidays[r].Some? then 1.0 else 0.0)
  {
    SetEffect(t, "is_holiday", HolidayFlags(holidays));
  }

  /** Holiday list mode: `holiday_name` holds the name, or the empty string on ordinary days. */
  lemma HolidayList(c: Calendar, t: Table, holidays: seq<Option<string>>, r: nat)
    requires c.holidays == Some(ListMode) && r < |holidays|
    ensures Get(Holidays(c, t, holidays), "holiday_name") == Some(HolidayNames(holidays))
    ensures holidays[r].None? ==> HolidayNames(holidays)[r] == Str("")
    ensures holidays[r].Some? ==> HolidayNames(holidays)[r] == Str(holidays[r].value)
  {
    SetEffect(t, "holiday_name", HolidayNames(holidays));
  }

  /** Holiday one-hot: a holiday present in the rows gets its `is_…` column marking its rows. */
  lemma HolidayOneHot(c: Calendar, t: Table, holidays: seq<Option<string>>, k: nat)
    requires c.holidays == Some(OneHot) && k < |Unique(holidays)|
    requires forall j :: k < j < |Unique(holidays)| ==> HolidayColumn(Unique(holidays)[j]) != HolidayColumn(Unique(holidays)[k])
    ensures Get(Holidays(c, t, holidays), HolidayColumn(Unique(holidays)[k])) == Some(Marks(holidays, Unique(holidays)[k]))
  {
    HolidayCells(t, holidays, k);
  }
}
