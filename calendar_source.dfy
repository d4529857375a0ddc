/**
 * The calendar source: an hourly frame of time stamps with weekday and
 * holiday columns, indexed by the time stamps.
 */
module CalendarSource {
  import opened Wrappers
  import opened Text
  import opened OrderedDict
  import opened Frame
  import opened CalendarEncoding

  /** The encodings are free strings: one the source does not know adds nothing. */
  datatype Source = Source(countryCode: string, weekly: Option<string>, holidays: Option<string>)

  /** The constructor's defaults: weekday one-hot columns and a holiday flag. */
  function New(countryCode: string): (s: Source)
    ensures s.countryCode == countryCode && s.weekly == Some("one-hot") && s.holidays == Some("exists")
  {
    Source(countryCode, Some("one-hot"), Some("exists"))
  }

  /** One hourly time stamp of the requested range, with what the calendar libraries say about it. */
  datatype Stamp = Stamp(time: int, day: Day)

  const WeekdayColumns: seq<string> :=
    ["is_monday", "is_tuesday", "is_wednesday", "is_thursday", "is_friday", "is_saturday", "is_sunday"]

  function Times(stamps: seq<Stamp>): (r: seq<Value>)
    ensures |r| == |stamps| && forall i :: 0 <= i < |stamps| ==> r[i] == Time(stamps[i].time)
  {
    seq(|stamps|, i requires 0 <= i < |stamps| => Time(stamps[i].time))
  }

  function Days(stamps: seq<Stamp>): (r: seq<Day>)
    ensures |r| == |stamps| && forall i :: 0 <= i < |stamps| ==> r[i] == stamps[i].day
  {
    seq(|stamps|, i requires 0 <= i < |stamps| => stamps[i].day)
  }

  function DaysOfWeek(days: seq<Day>): (r: seq<int>)
    ensures |r| == |days| && forall i :: 0 <= i < |days| ==> r[i] == days[i].dayOfWeek
  {
    seq(|days|, i requires 0 <= i < |days| => days[i].dayOfWeek)
  }

  /** `pd.DataFrame({'date': dates})`: a positional index and one `date` column. */
  function Initial(stamps: seq<Stamp>): (t: Table)
    ensures WellFormed(t) && Get(t, "date") == Some(Times(stamps))
  {
    var t := Table(seq(|stamps|, i requires 0 <= i < |stamps| => Num(i as real)), [Entry("date", Times(stamps))]);
    FindIs(t.cols, "date", 0);
    t
  }

  /** The weekday columns. */
  function Weekly(s: Source, t: Table, days: seq<Day>): Table {
    if s.weekly == Some("one-hot") then WithColumns(t, IndicatorUpdates(WeekdayColumns, DaysOfWeek(days), 0))
    else if s.weekly == Some("list") then Set(t, "weekday", WeekdayNames(days))
    else if s.weekly == Some("number") then Set(t, "weekday", Numbers(WeekdayNumbers(days)))
    else t
  }

  /** The holiday columns. */
  function Holidays(s: Source, t: Table, holidays: seq<Option<string>>): Table {
    if s.holidays == Some("exists") then Set(t, "is_holiday", HolidayFlags(holidays))
    else if s.holidays == Some("one-hot") then WithColumns(t, HolidayUpdates(holidays))
    else if s.holidays == Some("list") then Set(t, "holiday_name", HolidayNames(holidays))
    else t
  }

  /** `set_index('date', inplace=True)`. */
  function IndexedByDate(t: Table): Table {
    var d := Get(t, "date");
    if d.Some? then Table(d.value, Drop(t.cols, "date")) else t
  }

  function FetchOf(s: Source, stamps: seq<Stamp>): Table {
    var days := Days(stamps);
    IndexedByDate(Holidays(s, Weekly(s, Initial(stamps), days), HolidaysOf(days)))
  }

  method AddWeekly(s: Source, calendar: DataFrame, days: seq<Day>)
    modifies calendar
    ensures calendar.Snapshot() == Weekly(s, old(calendar.Snapshot()), days)
  {
    if s.weekly.Some? {
      if s.weekly.value == "one-hot" {
        calendar.AssignAll(IndicatorUpdates(WeekdayColumns, DaysOfWeek(days), 0));
      } else if s.weekly.value == "list" {
        calendar.Assign("weekday", WeekdayNames(days));
      } else if s.weekly.value == "number" {
        calendar.Assign("weekday", Numbers(WeekdayNumbers(days)));
      }
    }
  }

  method AddHolidays(s: Source, calendar: DataFrame, holidays: seq<Option<string>>)
    modifies calendar
    ensures calendar.Snapshot() == Holidays(s, old(calendar.Snapshot()), holidays)
  {
    if s.holidays.Some? {
      if s.holidays.value == "exists" {
        calendar.Assign("is_holiday", HolidayFlags(holidays));
      } else if s.holidays.value == "one-hot" {
        calendar.AssignAll(HolidayUpdates(holidays));
      } else if s.holidays.value == "list" {
        calendar.Assign("holiday_name", HolidayNames(holidays));
      }
    }
  }

  /** `fetch` over the given time stamps. */
  method Fetch(s: Source, stamps: seq<Stamp>) returns (calendar: DataFrame)
    ensures fresh(calendar)
    ensures calendar.Snapshot() == FetchOf(s, stamps)
  {
    var days := Days(stamps);
    calendar := new DataFrame(Initial(stamps));
    AddWeekly(s, calendar, days);
    AddHolidays(s, calendar, HolidaysOf(days));
    var _ := calendar.SetIndex("date");
  }

  lemma WeekdayColumnsDistinct()
    ensures Distinct(WeekdayColumns)
  {
    forall i, j | 0 <= i < j < |WeekdayColumns|
      ensures WeekdayColumns[i] != WeekdayColumns[j]
    {
      assert i == 0 || i == 1 || i == 2 || i == 3 || i == 4 || i == 5;
      assert j == 1 || j == 2 || j == 3 || j == 4 || j == 5 || j == 6;
      assert WeekdayColumns[i][4] != WeekdayColumns[j][4] || WeekdayColumns[i][3] != WeekdayColumns[j][3];
    }
  }

  lemma NotDate(k: nat)
    requires k < 7
    ensures WeekdayColumns[k] != "date"
  {
    assert WeekdayColumns[k][0] == 'i';
  }

  /** The weekday and holiday stages never write the `date` column, so the frame ends up indexed by the time stamps. */
  lemma FetchIndex(s: Source, stamps: seq<Stamp>)
    ensures FetchOf(s, stamps).index == Times(stamps)
    ensures "date" !in Keys(FetchOf(s, stamps).cols)
  {
    var days := Days(stamps);
    var t0 := Initial(stamps);
    var t1 := Weekly(s, t0, days);
    var t2 := Holidays(s, t1, HolidaysOf(days));
    assert Get(t1, "date") == Some(Times(stamps)) by {
      if s.weekly == Some("one-hot") {
        forall k | 0 <= k < 7 {
          NotDate(k);
        }
        WithColumnsOther(t0, IndicatorUpdates(WeekdayColumns, DaysOfWeek(days), 0), "date");
      } else if s.weekly == Some("list") {
        SetEffect(t0, "weekday", WeekdayNames(days));
      } else if s.weekly == Some("number") {
        SetEffect(t0, "weekday", Numbers(WeekdayNumbers(days)));
      }
    }
    assert Get(t2, "date") == Some(Times(stamps)) by {
      var holidays := HolidaysOf(days);
      if s.holidays == Some("exists") {
        SetEffect(t1, "is_holiday", HolidayFlags(holidays));
      } else if s.holidays == Some("one-hot") {
        assert !StartsWith("date", "is_") by {
          assert "date"[0] != "is_"[0];
        }
        HolidayKeepsOthers(t1, holidays, "date");
      } else if s.holidays == Some("list") {
        SetEffect(t1, "holiday_name", HolidayNames(holidays));
      }
    }
  }

  /** Without weekday or holiday encoding the frame holds only its index of time stamps. */
  lemma NothingConfigured(s: Source, stamps: seq<Stamp>)
    requires s.weekly.None? && s.holidays.None?
    ensures FetchOf(s, stamps) == Table(Times(stamps), [])
  {
    var t := Initial(stamps);
    assert Drop(t.cols, "date") == [];
  }

  /** Columns the holiday stage and the re-indexing leave alone. */
  lemma KeptByLaterStages(s: Source, stamps: seq<Stamp>, name: string)
    requires name != "date" && !StartsWith(name, "is_") && name != "holiday_name"
    ensures Get(FetchOf(s, stamps), name) == Get(Weekly(s, Initial(stamps), Days(stamps)), name)
  {
    var days := Days(stamps);
    var t1 := Weekly(s, Initial(stamps), days);
    var holidays := HolidaysOf(days);
    var t2 := Holidays(s, t1, holidays);
    if s.holidays == Some("exists") {
      assert !StartsWith("is_holiday", "is_") ==> false;
      SetEffect(t1, "is_holiday", HolidayFlags(holidays));
    } else if s.holidays == Some("one-hot") {
      HolidayKeepsOthers(t1, holidays, name);
    } else if s.holidays == Some("list") {
      SetEffect(t1, "holiday_name", HolidayNames(holidays));
    }
    if Get(t2, "date").Some? {
      DropLookup(t2.cols, "date", name);
    }
  }

  /** The weekday stage in number mode writes the `weekday` column and nothing the later stages touch. */
  lemma WeeklyNumberStage(s: Source, stamps: seq<Stamp>)
    requires s.weekly == Some("number")
    ensures Get(Weekly(s, Initial(stamps), Days(stamps)), "weekday") == Some(Numbers(WeekdayNumbers(Days(stamps))))
  {
    SetGet(Initial(stamps), "weekday", Numbers(WeekdayNumbers(Days(stamps))), "weekday");
  }

  /** Weekday number mode: `weekday` is dayofweek + 1, between 1 and 7. */
  lemma WeekdayNumber(s: Source, stamps: seq<Stamp>, r: nat)
    requires s.weekly == Some("number") && r < |stamps|
    ensures Get(FetchOf(s, stamps), "weekday") == Some(Numbers(WeekdayNumbers(Days(stamps))))
    ensures Numbers(WeekdayNumbers(Days(stamps)))[r] == Num((stamps[r].day.dayOfWeek + 1) as real)
    ensures 1 <= stamps[r].day.dayOfWeek + 1 <= 7
  {
    assert !StartsWith("weekday", "is_") by {
      assert "weekday"[0] != "is_"[0];
    }
    KeptByLaterStages(s, stamps, "weekday");
    WeeklyNumberStage(s, stamps);
  }

  /** Weekday list mode: `weekday` holds the day's name. */
  lemma WeekdayList(s: Source, stamps: seq<Stamp>)
    requires s.weekly == Some("list")
    ensures Get(FetchOf(s, stamps), "weekday") == Some(WeekdayNames(Days(stamps)))
  {
    assert !StartsWith("weekday", "is_") by {
      assert "weekday"[0] != "is_"[0];
    }
    KeptByLaterStages(s, stamps, "weekday");
    SetEffect(Initial(stamps), "weekday", WeekdayNames(Days(stamps)));
  }

  /** Weekday one-hot: `is_monday` … `is_sunday`, column k being 1 exactly on the rows with dayofweek k; one of them is 1 per row. */
  lemma WeekdayOneHot(s: Source, stamps: seq<Stamp>, k: nat, r: nat)
    requires s.weekly == Some("one-hot") && k < 7 && r < |stamps|
    ensures Get(Weekly(s, Initial(stamps), Days(stamps)), WeekdayColumns[k]) == Some(IndicatorColumn(DaysOfWeek(Days(stamps)), k))
    ensures IndicatorColumn(DaysOfWeek(Days(stamps)), k)[r] == Indicator(stamps[r].day.dayOfWeek == k)
  {
    WeekdayColumnsDistinct();
    IndicatorCells(Initial(stamps), WeekdayColumns, DaysOfWeek(Days(stamps)), 0, k);
  }

  /** Column `name` of `t` exists, is as long as the rows and holds a one on row `r`. */
  predicate OneAt(t: Table, name: string, r: nat) {
    var c := Get(t, name);
    c.Some? && r < |c.value| && c.value[r] == Num(1.0)
  }

  /** Weekday one-hot: on every row exactly one of the seven weekday columns holds a one, the day's own. */
  lemma WeekdayExactlyOne(s: Source, stamps: seq<Stamp>, r: nat)
    requires s.weekly == Some("one-hot") && r < |stamps|
    ensures forall k :: 0 <= k < 7 ==>
      (OneAt(Weekly(s, Initial(stamps), Days(stamps)), WeekdayColumns[k], r) <==> k == stamps[r].day.dayOfWeek)
  {
    forall k | 0 <= k < 7
      ensures OneAt(Weekly(s, Initial(stamps), Days(stamps)), WeekdayColumns[k], r) <==> k == stamps[r].day.dayOfWeek
    {
      WeekdayOneHot(s, stamps, k, r);
    }
  }

  /** Holidays are written last: what the holiday stage writes is what the frame holds. */
  lemma HolidayStageKept(s: Source, stamps: seq<Stamp>, name: string)
    requires name != "date"
    ensures Get(FetchOf(s, stamps), name)
         == Get(Holidays(s, Weekly(s, Initial(stamps), Days(stamps)), HolidaysOf(Days(stamps))), name)
  {
    var t2 := Holidays(s, Weekly(s, Initial(stamps), Days(stamps)), HolidaysOf(Days(stamps)));
    if Get(t2, "date").Some? {
      DropLookup(t2.cols, "date", name);
    }
  }

  /** Holiday `exists` mode: `is_holiday` is 1 exactly on the rows that have a holiday. */
  lemma HolidayExists(s: Source, stamps: seq<Stamp>, r: nat)
    requires s.holidays == Some("exists") && r < |stamps|
    ensures Get(FetchOf(s, stamps), "is_holiday") == Some(HolidayFlags(HolidaysOf(Days(stamps))))
    ensures HolidayFlags(HolidaysOf(Days(stamps)))[r] == Indicator(stamps[r].day.holiday.Some?)
  {
    HolidayStageKept(s, stamps, "is_holiday");
    SetEffect(Weekly(s, Initial(stamps), Days(stamps)), "is_holiday", HolidayFlags(HolidaysOf(Days(stamps))));
  }

  /** Holiday list mode: `holiday_name` holds the name, or the empty string on ordinary days. */
  lemma HolidayList(s: Source, stamps: seq<Stamp>, r: nat)
    requires s.holidays == Some("list") && r < |stamps|
    ensures Get(FetchOf(s, stamps), "holiday_name") == Some(HolidayNames(HolidaysOf(Days(stamps))))
    ensures stamps[r].day.holiday.None? ==> HolidayNames(HolidaysOf(Days(stamps)))[r] == Str("")
  {
    HolidayStageKept(s, stamps, "holiday_name");
    SetEffect(Weekly(s, Initial(stamps), Days(stamps)), "holiday_name", HolidayNames(HolidaysOf(Days(stamps))));
  }

  /** Holiday one-hot: a holiday present gets its `is_…` column marking its rows. */
  lemma HolidayOneHot(s: Source, stamps: seq<Stamp>, k: nat)
    requires s.holidays == Some("one-hot")
    requires k < |Unique(HolidaysOf(Days(stamps)))|
    requires forall j :: k < j < |Unique(HolidaysOf(Days(stamps)))| ==>
      HolidayColumn(Unique(HolidaysOf(Days(stamps)))[j]) != HolidayColumn(Unique(HolidaysOf(Days(stamps)))[k])
    ensures Get(FetchOf(s, stamps), HolidayColumn(Unique(HolidaysOf(Days(stamps)))[k]))
         == Some(Marks(HolidaysOf(Days(stamps)), Unique(HolidaysOf(Days(stamps)))[k]))
  {
    var holidays := HolidaysOf(Days(stamps));
    var name := HolidayColumn(Unique(holidays)[k]);
    assert name != "date" by {
      assert name[0] == 'i';
    }
    HolidayStageKept(s, stamps, name);
    HolidayCells(Weekly(s, Initial(stamps), Days(stamps)), holidays, k);
  }
}
