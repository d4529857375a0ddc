/**
 * The Open-Meteo weather source: the argument checks of its constructor and
 * the request parameters it sends. Geocoding a place name is a call to a web
 * service and is a parameter here.
 */
module OpenMeteoSource {
  import opened Wrappers
  import opened Text

  /** The weather variables the source accepts. */
  const AllowedColumns: seq<string> :=
    ["temperature_2m", "rain", "showers", "snowfall", "relative_humidity_2m", "dew_point_2m", "apparent_temperature",
     "precipitation", "weather_code", "surface_pressure", "pressure_msl", "cloud_cover", "wind_speed_10m", "wind_direction_10m"]

  /** The only weather model accepted, also the default. */
  const JmaSeamless: string := "jma_seamless"

  const DefaultHorizon: int := 7
  const MaxHorizon: int := 7
  const DefaultUrl: string := "https://previous-runs-api.open-meteo.com/v1/forecast"

  /** A latitude or longitude is either a number or a string. */
  datatype Coordinate = Degrees(x: real) | Text(s: string)

  /** The constructor's arguments, before any check. */
  datatype Arguments = Arguments(
    latitude: Option<Coordinate>,
    longitude: Option<Coordinate>,
    predictionHorizon: int,
    weatherModel: string,
    columns: Option<seq<string>>,
    columnsPrefix: Option<string>,
    placeName: Option<string>,
    url: Option<string>)

  /** The arguments with only `columns` and a location given, the rest at their defaults. */
  function Defaults(columns: Option<seq<string>>, latitude: Option<Coordinate>, longitude: Option<Coordinate>,
                    placeName: Option<string>): (a: Arguments)
    ensures a.predictionHorizon == 7 && a.weatherModel == "jma_seamless" && a.url == Some(DefaultUrl)
    ensures a.columnsPrefix.None?
  {
    Arguments(latitude, longitude, DefaultHorizon, JmaSeamless, columns, None, placeName, Some(DefaultUrl))
  }

  /** A constructed source, its fields frozen. */
  datatype Source = Source(
    columns: seq<string>,
    weatherModel: string,
    predictionHorizon: int,
    columnsPrefix: Option<string>,
    longitude: Option<Coordinate>,
    latitude: Option<Coordinate>,
    url: Option<string>)

  /** Why construction fails; the fields that fail validation are listed in declaration order. */
  datatype ConstructionError =
    | ColumnsMissing
    | LocationMissing
    | GeocodingFailed(placeName: string)
    | ValidationFailed(fields: seq<string>)

  /** The geocoding service: a place name to its (longitude, latitude), or nothing for an unknown place. */
  type Geocoder = string -> Option<(Coordinate, Coordinate)>

  predicate AllowedColumn(c: string) {
    c in AllowedColumns
  }

  predicate ColumnsValid(columns: seq<string>) {
    forall i :: 0 <= i < |columns| ==> AllowedColumn(columns[i])
  }

  predicate HorizonValid(h: int) {
    1 <= h <= MaxHorizon
  }

  /** The fields that fail validation, in declaration order. */
  function InvalidFields(columns: seq<string>, weatherModel: string, horizon: int): (r: seq<string>)
    ensures "columns" in r <==> !ColumnsValid(columns)
    ensures "weather_model" in r <==> weatherModel != JmaSeamless
    ensures "prediction_horizon" in r <==> !HorizonValid(horizon)
    ensures r == [] <==> ColumnsValid(columns) && weatherModel == JmaSeamless && HorizonValid(horizon)
  {
    (if ColumnsValid(columns) then [] else ["columns"])
    + (if weatherModel == JmaSeamless then [] else ["weather_model"])
    + (if HorizonValid(horizon) then [] else ["prediction_horizon"])
  }

  /** The constructor: `columns` first, then a location, then geocoding, then field validation. */
  function New(a: Arguments, geocode: Geocoder): (r: Result<Source, ConstructionError>)
    ensures r == Err(ColumnsMissing) <==> a.columns.None?
    ensures r == Err(LocationMissing) <==> a.columns.Some? && a.placeName.None? && a.latitude.None? && a.longitude.None?
    ensures r.Err? && r.error.GeocodingFailed? ==> a.placeName == Some(r.error.placeName) && geocode(r.error.placeName).None?
    ensures r.Ok? ==>
      && Some(r.value.columns) == a.columns
      && ColumnsValid(r.value.columns)
      && r.value.weatherModel == JmaSeamless
      && HorizonValid(r.value.predictionHorizon)
      && r.value.predictionHorizon == a.predictionHorizon
      && r.value.columnsPrefix == a.columnsPrefix
      && r.value.url == a.url
  {
    if a.columns.None? then Err(ColumnsMissing)
    else if a.placeName.None? && a.latitude.None? && a.longitude.None? then Err(LocationMissing)
    else
      var location :=
        if a.placeName.Some? then
          match geocode(a.placeName.value)
          case Some((lon, lat)) => Some((Some(lon), Some(lat)))
          case None => None
        else Some((a.longitude, a.latitude));
      if location.None? then Err(GeocodingFailed(a.placeName.value))
      else
        var invalid := InvalidFields(a.columns.value, a.weatherModel, a.predictionHorizon);
        if invalid != [] then Err(ValidationFailed(invalid))
        else Ok(Source(a.columns.value, a.weatherModel, a.predictionHorizon, a.columnsPrefix,
                       location.value.0, location.value.1, a.url))
  }

  /** Construction succeeds exactly when every check passes. */
  lemma NewSucceeds(a: Arguments, geocode: Geocoder)
    ensures New(a, geocode).Ok? <==>
      && a.columns.Some?
      && (a.placeName.Some? || a.latitude.Some? || a.longitude.Some?)
      && (a.placeName.Some? ==> geocode(a.placeName.value).Some?)
      && InvalidFields(a.columns.value, a.weatherModel, a.predictionHorizon) == []
  {
  }

  /** A place name wins over the coordinates given: the source holds what geocoding returned. */
  lemma PlaceNameOverrides(a: Arguments, geocode: Geocoder)
    requires New(a, geocode).Ok? && a.placeName.Some?
    ensures geocode(a.placeName.value).Some?
    ensures New(a, geocode).value.longitude == Some(geocode(a.placeName.value).value.0)
    ensures New(a, geocode).value.latitude == Some(geocode(a.placeName.value).value.1)
  {
  }

  /** Without a place name the coordinates are kept verbatim, one of them possibly missing. */
  lemma CoordinatesKept(a: Arguments, geocode: Geocoder)
    requires New(a, geocode).Ok? && a.placeName.None?
    ensures New(a, geocode).value.longitude == a.longitude
    ensures New(a, geocode).value.latitude == a.latitude
    ensures a.latitude.Some? || a.longitude.Some?
  {
  }

  /** Columns are checked before the location: with neither, the error is about `columns`. */
  lemma ColumnsCheckedFirst(a: Arguments, geocode: Geocoder)
    requires a.columns.None? && a.placeName.None? && a.latitude.None? && a.longitude.None?
    ensures New(a, geocode) == Err(ColumnsMissing)
  {
  }

  /** A horizon outside 1..7 is rejected whatever else is given. */
  lemma HorizonRejected(a: Arguments, geocode: Geocoder)
    requires !HorizonValid(a.predictionHorizon)
    ensures New(a, geocode).Err?
    ensures a.columns.Some? && (a.placeName.Some? || a.latitude.Some? || a.longitude.Some?)
            && (a.placeName.Some? ==> geocode(a.placeName.value).Some?)
        ==> New(a, geocode).error.ValidationFailed? && "prediction_horizon" in New(a, geocode).error.fields
  {
  }

  // Request parameters

  /** The number of days `range(1, horizon + 1)` runs over. */
  function Days(horizon: int): (n: nat)
    ensures horizon >= 1 ==> n == horizon
    ensures horizon < 1 ==> n == 0
  {
    if horizon < 1 then 0 else horizon
  }

  /** The variable for one column and one day back. */
  function PreviousDay(column: string, day: nat): (v: string)
    ensures StartsWith(v, column)
  {
    var v := column + ("_previous_day" + NatToString(day));
    assert v[..|column|] == column;
    v
  }

  /** The variables of one column, days 1 to `horizon`. */
  function ColumnVariables(column: string, horizon: int): (r: seq<string>)
    ensures |r| == Days(horizon)
    ensures forall i :: 0 <= i < |r| ==> r[i] == PreviousDay(column, i + 1)
  {
    seq(Days(horizon), i requires 0 <= i < Days(horizon) => PreviousDay(column, i + 1))
  }

  /** `hourly_columns`: columns outside, days inside. */
  function HourlyColumns(columns: seq<string>, horizon: int): seq<string> {
    if columns == [] then []
    else HourlyColumns(columns[..|columns| - 1], horizon) + ColumnVariables(columns[|columns| - 1], horizon)
  }

  lemma {:induction false} HourlyLength(columns: seq<string>, horizon: int)
    ensures |HourlyColumns(columns, horizon)| == |columns| * Days(horizon)
  {
    if columns != [] {
      var n := |columns| - 1;
      HourlyLength(columns[..n], horizon);
      assert (n + 1) * Days(horizon) == n * Days(horizon) + Days(horizon);
    }
  }

  lemma MulLess(c: nat, n: nat, m: nat, l: nat)
    requires c < n && l < m
    ensures c * m + l < n * m
  {
    assert (c + 1) * m <= n * m;
  }

  /** Position c·horizon + i holds column c's variable for day i + 1. */
  lemma {:induction false} HourlyAt(columns: seq<string>, horizon: int, c: nat, i: nat)
    requires c < |columns| && i < Days(horizon)
    ensures c * Days(horizon) + i < |HourlyColumns(columns, horizon)|
    ensures HourlyColumns(columns, horizon)[c * Days(horizon) + i] == PreviousDay(columns[c], i + 1)
  {
    var n := |columns| - 1;
    HourlyLength(columns[..n], horizon);
    HourlyLength(columns, horizon);
    if c < n {
      HourlyAt(columns[..n], horizon, c, i);
      MulLess(c, n, Days(horizon), i);
    }
  }

  /** Every variable requested belongs to some column and some day in 1..horizon. */
  lemma {:induction false} HourlyFrom(columns: seq<string>, horizon: int, k: nat)
    requires k < |HourlyColumns(columns, horizon)|
    ensures exists c, i :: 0 <= c < |columns| && 1 <= i <= Days(horizon) && HourlyColumns(columns, horizon)[k] == PreviousDay(columns[c], i)
  {
    var n := |columns| - 1;
    var prefix := HourlyColumns(columns[..n], horizon);
    if k < |prefix| {
      HourlyFrom(columns[..n], horizon, k);
      var c, i :| 0 <= c < n && 1 <= i <= Days(horizon) && prefix[k] == PreviousDay(columns[..n][c], i);
      assert columns[..n][c] == columns[c];
    } else {
      assert HourlyColumns(columns, horizon)[k] == PreviousDay(columns[n], k - |prefix| + 1);
    }
  }

  /** The query of one request. */
  datatype Params = Params(
    latitude: Option<Coordinate>,
    longitude: Option<Coordinate>,
    hourly: seq<string>,
    startDate: string,
    endDate: string)

  /** `_create_api_params`: coordinates and dates passed through, the variables of every column and day. */
  function ApiParams(src: Source, startDate: string, endDate: string): (p: Params)
    ensures p.latitude == src.latitude && p.longitude == src.longitude
    ensures p.startDate == startDate && p.endDate == endDate
    ensures |p.hourly| == |src.columns| * Days(src.predictionHorizon)
  {
    HourlyLength(src.columns, src.predictionHorizon);
    Params(src.latitude, src.longitude, HourlyColumns(src.columns, src.predictionHorizon), startDate, endDate)
  }

  /** A constructed source asks for between one and seven days per column. */
  lemma ParamsOfConstructed(a: Arguments, geocode: Geocoder, startDate: string, endDate: string)
    requires New(a, geocode).Ok?
    ensures |ApiParams(New(a, geocode).value, startDate, endDate).hourly| == |a.columns.value| * a.predictionHorizon
    ensures 1 <= a.predictionHorizon <= 7
  {
  }

  /** One temperature column over the default seven days: `temperature_2m_previous_day1` to `…day7`. */
  lemma TemperatureSevenDays(src: Source)
    requires src.columns == ["temperature_2m"] && src.predictionHorizon == 7
    ensures ApiParams(src, "20-01-2020", "12-01-2021").hourly ==
      seq(7, i requires 0 <= i < 7 => "temperature_2m_previous_day" + NatToString(i + 1))
    ensures ApiParams(src, "20-01-2020", "12-01-2021").hourly[0] == "temperature_2m_previous_day1"
  {
    assert src.columns[..0] == [];
    assert HourlyColumns(src.columns[..0], 7) == [];
    assert src.columns[|src.columns| - 1] == "temperature_2m";
    var h := HourlyColumns(src.columns, 7);
    assert h == ColumnVariables("temperature_2m", 7);
    forall i | 0 <= i < 7
      ensures h[i] == "temperature_2m_previous_day" + NatToString(i + 1)
    {
      var digits := NatToString(i + 1);
      assert "temperature_2m" + ("_previous_day" + digits) == "temperature_2m_previous_day" + digits;
    }
    assert NatToString(1) == "1";
  }

  // Naming the response's variables

  /**
   * `_process_open_meteo_responses` as written: frame column `columns[i]`
   * takes the response's variable i, for i below the number of columns.
   */
  function ResponseColumnsAsWritten(src: Source): (r: seq<(string, nat)>)
    ensures |r| == |src.columns|
    ensures forall i :: 0 <= i < |r| ==> r[i] == (src.columns[i], i)
  {
    seq(|src.columns|, i requires 0 <= i < |src.columns| => (src.columns[i], i))
  }

  /** The response holds one variable per requested name, in request order; each is named after its request. */
  function ResponseColumns(src: Source): (r: seq<(string, nat)>)
    ensures |r| == |HourlyColumns(src.columns, src.predictionHorizon)|
    ensures forall k :: 0 <= k < |r| ==> r[k] == (HourlyColumns(src.columns, src.predictionHorizon)[k], k)
  {
    var hourly := HourlyColumns(src.columns, src.predictionHorizon);
    seq(|hourly|, k requires 0 <= k < |hourly| => (hourly[k], k))
  }

  /** Every column and day requested gets a frame column named after it and holding its own variable. */
  lemma ResponseColumnsNamed(src: Source, c: nat, i: nat)
    requires c < |src.columns| && i < Days(src.predictionHorizon)
    ensures c * Days(src.predictionHorizon) + i < |ResponseColumns(src)|
    ensures ResponseColumns(src)[c * Days(src.predictionHorizon) + i]
         == (PreviousDay(src.columns[c], i + 1), c * Days(src.predictionHorizon) + i)
  {
    HourlyAt(src.columns, src.predictionHorizon, c, i);
  }

  /**
   * As written, with two columns and seven days the second column is
   * filled with the first column's values of two days back.
   */
  lemma AsWrittenMislabels()
    ensures var src := Source(["rain", "snowfall"], JmaSeamless, 7, None, None, None, None);
      && ResponseColumnsAsWritten(src)[1] == ("snowfall", 1)
      && HourlyColumns(src.columns, src.predictionHorizon)[1] == PreviousDay("rain", 2)
      && !StartsWith(PreviousDay("rain", 2), "snowfall")
  {
    var src := Source(["rain", "snowfall"], JmaSeamless, 7, None, None, None, None);
    HourlyAt(src.columns, 7, 0, 1);
    assert PreviousDay("rain", 2)[0] != "snowfall"[0];
  }

  /** With one day per column the variable i requested is column i's, so the labels as written are right. */
  lemma AsWrittenRightForOneDay(src: Source, i: nat)
    requires src.predictionHorizon == 1 && i < |src.columns|
    ensures i < |HourlyColumns(src.columns, 1)|
    ensures HourlyColumns(src.columns, 1)[i] == PreviousDay(ResponseColumnsAsWritten(src)[i].0, 1)
  {
    HourlyAt(src.columns, 1, i, 0);
  }
}
