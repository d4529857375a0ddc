/**
 * Calendar encodings shared by the calendar transformation and the calendar
 * source: what the calendar libraries report for one time stamp, indicator
 * columns compared against a position, and the holiday columns.
 */
module CalendarEncoding {
  import opened Wrappers
  import opened Text
  import opened Frame

  /**
   * What the calendar libraries report for one time stamp: the day of the
   * week (0 for Monday), the month, the quarter and the holiday's name, if any.
   */
  datatype CalendarDay = CalendarDay(dayOfWeek: int, month: int, quarter: int, holiday: Option<string>)

  type Day = d: CalendarDay | 0 <= d.dayOfWeek <= 6 && 1 <= d.month <= 12 && 1 <= d.quarter <= 4
    witness CalendarDay(0, 1, 1, None)

  /** `calendar.day_name`. */
  const DayNames: seq<string> := ["Monday", "Tuesday", "Wednesday", "Thursday", "Friday", "Saturday", "Sunday"]

  /** `calendar.month_name`: thirteen entries, the first one empty. */
  const MonthNames: seq<string> :=
    ["", "January", "February", "March", "April", "May", "June",
     "July", "August", "September", "October", "November", "December"]

  /** `dayofweek + 1`: 1 for Monday to 7 for Sunday. */
  function WeekdayNumbers(days: seq<Day>): (r: seq<int>)
    ensures |r| == |days| && forall i :: 0 <= i < |days| ==> r[i] == days[i].dayOfWeek + 1
  {
    seq(|days|, i requires 0 <= i < |days| => days[i].dayOfWeek + 1)
  }

  function Numbers(xs: seq<int>): (r: seq<Value>)
    ensures |r| == |xs| && forall i :: 0 <= i < |xs| ==> r[i] == Num(xs[i] as real)
  {
    seq(|xs|, i requires 0 <= i < |xs| => Num(xs[i] as real))
  }

  /** `index.day_name()`. */
  function WeekdayNames(days: seq<Day>): (r: seq<Value>)
    ensures |r| == |days| && forall i :: 0 <= i < |days| ==> r[i] == Str(DayNames[days[i].dayOfWeek])
  {
    seq(|days|, i requires 0 <= i < |days| => Str(DayNames[days[i].dayOfWeek]))
  }

  predicate Distinct(names: seq<string>) {
    forall i, j :: 0 <= i < j < |names| ==> names[i] != names[j]
  }

  /** `(comparison == k).astype(int)`. */
  function IndicatorColumn(comparison: seq<int>, k: int): (r: seq<Value>)
    ensures |r| == |comparison|
    ensures forall i :: 0 <= i < |comparison| ==> r[i] == Indicator(comparison[i] == k)
  {
    seq(|comparison|, i requires 0 <= i < |comparison| => Indicator(comparison[i] == k))
  }

  /** The assignments of an enumerate loop: column `names[i]` marks the rows whose value is `i + offset`. */
  function IndicatorUpdates(names: seq<string>, comparison: seq<int>, offset: int): (u: seq<(string, seq<Value>)>)
    ensures |u| == |names|
    ensures forall i :: 0 <= i < |names| ==> u[i] == (names[i], IndicatorColumn(comparison, i + offset))
  {
    seq(|names|, i requires 0 <= i < |names| => (names[i], IndicatorColumn(comparison, i + offset)))
  }

  /** With distinct names, column `names[k]` marks exactly the rows whose value is `k + offset`; other columns are kept. */
  lemma IndicatorCells(t: Table, names: seq<string>, comparison: seq<int>, offset: int, k: nat)
    requires Distinct(names) && k < |names|
    ensures Get(WithColumns(t, IndicatorUpdates(names, comparison, offset)), names[k])
         == Some(IndicatorColumn(comparison, k + offset))
  {
    WithColumnsLast(t, IndicatorUpdates(names, comparison, offset), k);
  }

  // Holidays

  /** `f"is_{holiday.lower().replace(' ', '_')}"`. */
  function HolidayColumn(name: string): (c: string)
    ensures StartsWith(c, "is_") && |c| == |name| + 3
  {
    "is_" + SpacesToUnderscores(Lower(name))
  }

  /** `holiday_names.dropna().unique()`: the holiday names present, in order of first appearance. */
  function Unique(holidays: seq<Option<string>>): seq<string> {
    if holidays == [] then []
    else
      var n := |holidays| - 1;
      var seen := Unique(holidays[..n]);
      seen + (if holidays[n].Some? && holidays[n].value !in seen then [holidays[n].value] else [])
  }

  /** Each holiday name present appears once, and only names present appear. */
  lemma {:induction false} UniqueMembers(holidays: seq<Option<string>>, name: string)
    ensures Distinct(Unique(holidays))
    ensures name in Unique(holidays) <==> exists r :: 0 <= r < |holidays| && holidays[r] == Some(name)
  {
    if holidays != [] {
      var n := |holidays| - 1;
      UniqueMembers(holidays[..n], name);
      if exists r :: 0 <= r < |holidays| && holidays[r] == Some(name) {
        var r :| 0 <= r < |holidays| && holidays[r] == Some(name);
        if r < n {
          assert holidays[..n][r] == holidays[r];
        }
      }
      if name in Unique(holidays[..n]) {
        var r :| 0 <= r < n && holidays[..n][r] == Some(name);
        assert holidays[r] == holidays[..n][r];
      }
    }
  }

  /** `(holiday_names == holiday).astype(int)`. */
  function Marks(holidays: seq<Option<string>>, name: string): (r: seq<Value>)
    ensures |r| == |holidays|
    ensures forall i :: 0 <= i < |holidays| ==> r[i] == Indicator(holidays[i] == Some(name))
  {
    seq(|holidays|, i requires 0 <= i < |holidays| => Indicator(holidays[i] == Some(name)))
  }

  /** The assignments of the one-hot holiday loop, one per distinct name present. */
  function HolidayUpdates(holidays: seq<Option<string>>): (u: seq<(string, seq<Value>)>)
    ensures |u| == |Unique(holidays)|
    ensures forall i :: 0 <= i < |u| ==> u[i] == (HolidayColumn(Unique(holidays)[i]), Marks(holidays, Unique(holidays)[i]))
  {
    var names := Unique(holidays);
    seq(|names|, i requires 0 <= i < |names| => (HolidayColumn(names[i]), Marks(holidays, names[i])))
  }

  /**
   * A holiday present in the rows gets a column marking the rows of that
   * holiday, unless a later holiday's name folds to the same column name.
   */
  lemma HolidayCells(t: Table, holidays: seq<Option<string>>, k: nat)
    requires k < |Unique(holidays)|
    requires forall j :: k < j < |Unique(holidays)| ==> HolidayColumn(Unique(holidays)[j]) != HolidayColumn(Unique(holidays)[k])
    ensures Get(WithColumns(t, HolidayUpdates(holidays)), HolidayColumn(Unique(holidays)[k]))
         == Some(Marks(holidays, Unique(holidays)[k]))
  {
    WithColumnsLast(t, HolidayUpdates(holidays), k);
  }

  /** Columns not named `is_…` are untouched by the holiday columns. */
  lemma HolidayKeepsOthers(t: Table, holidays: seq<Option<string>>, name: string)
    requires !StartsWith(name, "is_")
    ensures Get(WithColumns(t, HolidayUpdates(holidays)), name) == Get(t, name)
  {
    WithColumnsOther(t, HolidayUpdates(holidays), name);
  }

  /** `(holiday_names.notna()).astype(int)`. */
  function HolidayFlags(holidays: seq<Option<string>>): (r: seq<Value>)
    ensures |r| == |holidays|
    ensures forall i :: 0 <= i < |holidays| ==> r[i] == Indicator(holidays[i].Some?)
  {
    seq(|holidays|, i requires 0 <= i < |holidays| => Indicator(holidays[i].Some?))
  }

  /** `holiday_names.fillna('')`. */
  function HolidayNames(holidays: seq<Option<string>>): (r: seq<Value>)
    ensures |r| == |holidays|
    ensures forall i :: 0 <= i < |holidays| ==> r[i] == Str(if holidays[i].Some? then holidays[i].value else "")
  {
    seq(|holidays|, i requires 0 <= i < |holidays| => Str(if holidays[i].Some? then holidays[i].value else ""))
  }

  function HolidaysOf(days: seq<Day>): (r: seq<Option<string>>)
    ensures |r| == |days| && forall i :: 0 <= i < |days| ==> r[i] == days[i].holiday
  {
    seq(|days|, i requires 0 <= i < |days| => days[i].holiday)
  }
}
