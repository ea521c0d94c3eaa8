/** The Open-Meteo service layer of src/weather_service.py.

    The HTTP exchange is a parameter: `fetch` maps the request the service would
    send (endpoint and query parameters) to the decoded JSON body or a transport
    failure, which stands for a connection error or a refused status
    (`raise_for_status`). Everything the service decides about a request or a
    body is modelled: which candidate a geocoding answer yields, which query is
    sent, how a response is assembled with its fallbacks, and how the columnar
    daily and hourly sections become ordered rows. */
module WeatherService {
  import opened Wrappers
  import opened IsoDate
  import opened Models
  import opened Columnar

  const GEOCODING_URL: string := "https://geocoding-api.open-meteo.com/v1/search"
  const FORECAST_URL: string := "https://api.open-meteo.com/v1/forecast"
  const ARCHIVE_URL: string := "https://archive-api.open-meteo.com/v1/archive"

  /** The daily columns, in the order the request names them. */
  const DAILY_COLUMNS: seq<string> := [
    "temperature_2m_max", "temperature_2m_min", "sunrise", "sunset",
    "sunshine_duration", "daylight_duration", "wind_speed_10m_max",
    "precipitation_sum", "weather_code"]

  /** The `daily` query parameter: the daily column names separated by commas
      (written name by name; the string is the one the service sends). */
  const DAILY_PARAMS: string :=
    "temperature_2m_max" + "," + "temperature_2m_min" + "," + "sunrise" + "," + "sunset" + ","
    + "sunshine_duration" + "," + "daylight_duration" + "," + "wind_speed_10m_max" + ","
    + "precipitation_sum" + "," + "weather_code"

  const HOURLY_COLUMNS: seq<string> := ["temperature_2m", "wind_speed_10m", "precipitation", "weather_code", "is_day"]

  const HOURLY_PARAMS: string :=
    "temperature_2m" + "," + "wind_speed_10m" + "," + "precipitation" + "," + "weather_code" + "," + "is_day"

  /** The names separated by commas. */
  function CommaJoined(names: seq<string>): string {
    JoinPrefix(names, |names|)
  }

  /** The first `n` names separated by commas. */
  function JoinPrefix(names: seq<string>, n: nat): string
    requires n <= |names|
  {
    if n == 0 then "" else if n == 1 then names[0] else JoinPrefix(names, n - 1) + "," + names[n - 1]
  }

  /** The `daily` query parameter asks for exactly the columns the daily
      parser reads, in the same order. */
  lemma DailyParamsAreDailyColumns()
    ensures DAILY_PARAMS == CommaJoined(DAILY_COLUMNS)
  {
    assert JoinPrefix(DAILY_COLUMNS, 1) == DAILY_COLUMNS[0];
    assert JoinPrefix(DAILY_COLUMNS, 2) == JoinPrefix(DAILY_COLUMNS, 1) + "," + DAILY_COLUMNS[1];
    assert JoinPrefix(DAILY_COLUMNS, 3) == JoinPrefix(DAILY_COLUMNS, 2) + "," + DAILY_COLUMNS[2];
    assert JoinPrefix(DAILY_COLUMNS, 4) == JoinPrefix(DAILY_COLUMNS, 3) + "," + DAILY_COLUMNS[3];
    assert JoinPrefix(DAILY_COLUMNS, 5) == JoinPrefix(DAILY_COLUMNS, 4) + "," + DAILY_COLUMNS[4];
    assert JoinPrefix(DAILY_COLUMNS, 6) == JoinPrefix(DAILY_COLUMNS, 5) + "," + DAILY_COLUMNS[5];
    assert JoinPrefix(DAILY_COLUMNS, 7) == JoinPrefix(DAILY_COLUMNS, 6) + "," + DAILY_COLUMNS[6];
    assert JoinPrefix(DAILY_COLUMNS, 8) == JoinPrefix(DAILY_COLUMNS, 7) + "," + DAILY_COLUMNS[7];
    assert JoinPrefix(DAILY_COLUMNS, 9) == JoinPrefix(DAILY_COLUMNS, 8) + "," + DAILY_COLUMNS[8];
  }

  /** Likewise for the `hourly` query parameter. */
  lemma HourlyParamsAreHourlyColumns()
    ensures HOURLY_PARAMS == CommaJoined(HOURLY_COLUMNS)
  {
    assert JoinPrefix(HOURLY_COLUMNS, 1) == HOURLY_COLUMNS[0];
    assert JoinPrefix(HOURLY_COLUMNS, 2) == JoinPrefix(HOURLY_COLUMNS, 1) + "," + HOURLY_COLUMNS[1];
    assert JoinPrefix(HOURLY_COLUMNS, 3) == JoinPrefix(HOURLY_COLUMNS, 2) + "," + HOURLY_COLUMNS[2];
    assert JoinPrefix(HOURLY_COLUMNS, 4) == JoinPrefix(HOURLY_COLUMNS, 3) + "," + HOURLY_COLUMNS[3];
    assert JoinPrefix(HOURLY_COLUMNS, 5) == JoinPrefix(HOURLY_COLUMNS, 4) + "," + HOURLY_COLUMNS[4];
  }

  // ---------------------------------------------------------------------
  // Errors

  /** Why a `time` entry could not become a date or timestamp: it is not a
      string (Python's `TypeError`), or the string is refused (`ValueError`). */
  datatype TimeError = NotAString(entry: Option<Value>) | Malformed(iso: IsoError)

  /** A connection error or an error status; its details are not modelled. */
  datatype TransportError = TransportError(reason: string)

  /** What a service call can raise: the transport's failure, a key the body
      lacks (`KeyError`), or a `time` entry that does not parse. */
  datatype ServiceError = Transport(failure: TransportError) | MissingKey(key: string) | BadTime(time: TimeError)

  // ---------------------------------------------------------------------
  // Daily rows

  /** `date.fromisoformat(d)` on one `time` entry. */
  function DateOf(entry: Option<Value>): (r: Result<Date, TimeError>)
    ensures r.Success? <==> entry.Some? && entry.value.Text? && ParseDate(entry.value.text).Success?
    ensures r.Success? ==> r.value == ParseDate(entry.value.text).value
    ensures r.Failure? && entry.Some? && entry.value.Text? ==> r.error == Malformed(ParseDate(entry.value.text).error)
  {
    match entry
    case Some(Text(s)) => ParseDate(s).MapFailure(e => Malformed(e))
    case _ => Failure(NotAString(entry))
  }

  /** The record for day `i`: every field reads its own column at `i`. */
  function DailyRow(raw: Payload, i: nat, date: Date): DailyWeather {
    DailyWeather(
      date := date,
      temperature2mMax := GetAt(raw, "temperature_2m_max", i),
      temperature2mMin := GetAt(raw, "temperature_2m_min", i),
      sunrise := GetAt(raw, "sunrise", i),
      sunset := GetAt(raw, "sunset", i),
      sunshineDuration := GetAt(raw, "sunshine_duration", i),
      daylightDuration := GetAt(raw, "daylight_duration", i),
      windSpeed10mMax := GetAt(raw, "wind_speed_10m_max", i),
      precipitationSum := GetAt(raw, "precipitation_sum", i),
      weatherCode := GetAt(raw, "weather_code", i))
  }

  /** The field of a day that carries daily column `column`. */
  function DailyField(w: DailyWeather, column: string): Option<Value> {
    if column == "temperature_2m_max" then w.temperature2mMax
    else if column == "temperature_2m_min" then w.temperature2mMin
    else if column == "sunrise" then w.sunrise
    else if column == "sunset" then w.sunset
    else if column == "sunshine_duration" then w.sunshineDuration
    else if column == "daylight_duration" then w.daylightDuration
    else if column == "wind_speed_10m_max" then w.windSpeed10mMax
    else if column == "precipitation_sum" then w.precipitationSum
    else if column == "weather_code" then w.weatherCode
    else None
  }

  /** What `parse_daily_data` returns or raises for a payload. */
  function DailyRecords(raw: Payload): Result<seq<DailyWeather>, TimeError> {
    var times := TimeColumn(raw);
    RowsUpTo(raw, times, |times|, DateOf, DailyRow)
  }

  /** `parse_daily_data`: one record per `time` entry, appended in order. */
  method ParseDailyData(raw: Payload) returns (r: Result<seq<DailyWeather>, TimeError>)
    ensures r == DailyRecords(raw)
  {
    var dates := TimeColumn(raw);
    if |dates| == 0 {
      return Success([]);
    }
    var result: seq<DailyWeather> := [];
    for i := 0 to |dates|
      invariant RowsUpTo(raw, dates, i, DateOf, DailyRow) == Success(result)
    {
      var date := DateOf(dates[i]);
      if date.Failure? {
        RowsUpToFailureStays(raw, dates, i + 1, |dates|, DateOf, DailyRow);
        return Failure(date.error);
      }
      result := result + [DailyRow(raw, i, date.value)];
    }
    return Success(result);
  }

  lemma DailyRowFields(raw: Payload, i: nat, date: Date)
    ensures DailyRow(raw, i, date).date == date
    ensures forall c | c in DAILY_COLUMNS :: DailyField(DailyRow(raw, i, date), c) == GetAt(raw, c, i)
  {
    var w := DailyRow(raw, i, date);
    forall c | c in DAILY_COLUMNS
      ensures DailyField(w, c) == GetAt(raw, c, i)
    {
      var k :| 0 <= k < |DAILY_COLUMNS| && DAILY_COLUMNS[k] == c;
      if k == 0 { assert c == "temperature_2m_max"; }
      else if k == 1 { assert c == "temperature_2m_min"; }
      else if k == 2 { assert c == "sunrise"; }
      else if k == 3 { assert c == "sunset"; }
      else if k == 4 { assert c == "sunshine_duration"; }
      else if k == 5 { assert c == "daylight_duration"; }
      else if k == 6 { assert c == "wind_speed_10m_max"; }
      else if k == 7 { assert c == "precipitation_sum"; }
      else { assert c == "weather_code"; }
    }
  }

  /** Row count and index alignment: the parse succeeds exactly when every
      `time` entry is a valid date, and then record `i` has the `i`-th date and,
      for every daily column, that column's entry `i` (or `None` where the
      column is absent, null or shorter). */
  lemma DailyRecordsAligned(raw: Payload)
    ensures var times, r := TimeColumn(raw), DailyRecords(raw);
      && (r.Success? <==> forall i | 0 <= i < |times| :: DateOf(times[i]).Success?)
      && (r.Success? ==> |r.value| == |times|)
      && (r.Success? ==> forall i | 0 <= i < |times| ::
            && r.value[i].date == DateOf(times[i]).value
            && forall c | c in DAILY_COLUMNS :: DailyField(r.value[i], c) == GetAt(raw, c, i))
  {
    var times := TimeColumn(raw);
    RowsUpToShape(raw, times, |times|, DateOf, DailyRow);
    forall i | 0 <= i < |times| && DateOf(times[i]).Success? {
      DailyRowFields(raw, i, DateOf(times[i]).value);
    }
  }

  /** A malformed entry anywhere in `time` fails the whole parse, with the
      error of the first such entry; no partial list is returned. */
  lemma DailyRecordsFailAtFirstBadTime(raw: Payload, k: nat)
    requires k < |TimeColumn(raw)| && DateOf(TimeColumn(raw)[k]).Failure?
    ensures DailyRecords(raw).Failure?
    ensures exists j | 0 <= j <= k :: FirstFailure(TimeColumn(raw), |TimeColumn(raw)|, DateOf, j)
              && DailyRecords(raw).error == DateOf(TimeColumn(raw)[j]).error
  {
    var times := TimeColumn(raw);
    RowsUpToShape(raw, times, |times|, DateOf, DailyRow);
    var j :| 0 <= j < |times| && FirstFailure(times, |times|, DateOf, j) && DailyRecords(raw).error == DateOf(times[j]).error;
    assert j <= k;
  }

  /** An absent, null or empty `time` column gives no records, not an error. */
  lemma DailyRecordsEmpty(raw: Payload)
    requires TIME !in raw || raw[TIME].None? || raw[TIME].value == []
    ensures DailyRecords(raw) == Success([])
  {
  }

  /** Replacing any column other than `time` (dropping it to null, shortening
      it, changing it) neither adds nor drops a record, leaves every date and
      every other field as it was, and cannot make the parse fail or succeed. */
  lemma DailyColumnIndependent(raw: Payload, column: string, replacement: Column)
    requires column != TIME
    ensures var r, r' := DailyRecords(raw), DailyRecords(raw[column := replacement]);
      && r.Success? == r'.Success?
      && (r.Failure? ==> r' == r)
      && (r.Success? ==> |r'.value| == |r.value| && forall i | 0 <= i < |r.value| ::
            && r'.value[i].date == r.value[i].date
            && forall c | c in DAILY_COLUMNS && c != column :: DailyField(r'.value[i], c) == DailyField(r.value[i], c))
  {
    var raw' := raw[column := replacement];
    assert TimeColumn(raw') == TimeColumn(raw);
    var times := TimeColumn(raw);
    RowsUpToSameKeys(raw, raw', times, |times|, DateOf, DailyRow, DailyRow);
    DailyRecordsAligned(raw);
    DailyRecordsAligned(raw');
  }

  /** A column shorter than `time` leaves exactly its missing tail `None`. */
  lemma DailyShortColumn(raw: Payload, column: string, i: nat)
    requires column in DAILY_COLUMNS && column in raw && raw[column].Some?
    requires DailyRecords(raw).Success? && i < |DailyRecords(raw).value|
    ensures i >= |raw[column].value| ==> DailyField(DailyRecords(raw).value[i], column) == None
    ensures i < |raw[column].value| ==> DailyField(DailyRecords(raw).value[i], column) == raw[column].value[i]
  {
    DailyRecordsAligned(raw);
  }

  /** The two January 2025 dates of the example payload parse. */
  lemma JanuaryDates2025()
    ensures ParseDate("2025-01-15") == Success(Date(2025, 1, 15))
    ensures ParseDate("2025-01-16") == Success(Date(2025, 1, 16))
  {
    FormatJanuary15();
    FormatJanuary16();
    ParseFormatDate(Date(2025, 1, 15));
    ParseFormatDate(Date(2025, 1, 16));
  }

  /** The ISO form of `year`-01-`day`, for the concrete dates used below. */
  lemma FormatJanuary15() ensures FormatDate(Date(2025, 1, 15)) == "2025-01-15" {
    FourDigits(2025); TwoDigits(1); TwoDigits(15);
  }

  lemma FormatJanuary16() ensures FormatDate(Date(2025, 1, 16)) == "2025-01-16" {
    FourDigits(2025); TwoDigits(1); TwoDigits(16);
  }

  lemma FormatJanuary1() ensures FormatDate(Date(2024, 1, 1)) == "2024-01-01" {
    FourDigits(2024); TwoDigits(1);
  }

  lemma FormatJanuary31() ensures FormatDate(Date(2024, 1, 31)) == "2024-01-31" {
    FourDigits(2024); TwoDigits(1); TwoDigits(31);
  }

  /** Two days with one measurement column: two records in `time` order, the
      column's values at their indices, all other measurements absent. */
  const TWO_DAYS: Payload := map[
    TIME := Some([Some(Text("2025-01-15")), Some(Text("2025-01-16"))]),
    "temperature_2m_max" := Some([Some(Number(5.2)), Some(Number(6.1))])]

  /** Each day of the example holds its own maximum and nothing else. */
  lemma TwoDaysRow(i: nat, date: Date)
    requires i < 2
    ensures DailyRow(TWO_DAYS, i, date)
         == DailyWeather(date, temperature2mMax := Some(Number(if i == 0 then 5.2 else 6.1)))
  {
    assert TWO_DAYS.Keys == {TIME, "temperature_2m_max"};
  }

  /** The example's `time` entries: two entries, both January 2025 dates. */
  lemma TwoDaysDates()
    ensures var times := TimeColumn(TWO_DAYS);
      |times| == 2 && DateOf(times[0]) == Success(Date(2025, 1, 15)) && DateOf(times[1]) == Success(Date(2025, 1, 16))
  {
    JanuaryDates2025();
  }

  lemma DailyRecordsTwoDays()
    ensures DailyRecords(TWO_DAYS)
         == Success([DailyWeather(Date(2025, 1, 15), temperature2mMax := Some(Number(5.2))),
                     DailyWeather(Date(2025, 1, 16), temperature2mMax := Some(Number(6.1)))])
  {
    var times := TimeColumn(TWO_DAYS);
    var first, second := Date(2025, 1, 15), Date(2025, 1, 16);
    TwoDaysDates();
    TwoDaysRow(0, first);
    TwoDaysRow(1, second);
    RowsUpToShape(TWO_DAYS, times, 2, DateOf, DailyRow);
    var rows := DailyRecords(TWO_DAYS).value;
    assert rows == [DailyRow(TWO_DAYS, 0, first), DailyRow(TWO_DAYS, 1, second)];
  }

  // ---------------------------------------------------------------------
  // Hourly rows

  /** `datetime.fromisoformat(t)` on one `time` entry. */
  function DateTimeOf(entry: Option<Value>): (r: Result<DateTime, TimeError>)
    ensures r.Success? <==> entry.Some? && entry.value.Text? && ParseDateTime(entry.value.text).Success?
    ensures r.Success? ==> r.value == ParseDateTime(entry.value.text).value
    ensures r.Failure? && entry.Some? && entry.value.Text? ==> r.error == Malformed(ParseDateTime(entry.value.text).error)
  {
    match entry
    case Some(Text(s)) => ParseDateTime(s).MapFailure(e => Malformed(e))
    case _ => Failure(NotAString(entry))
  }

  function HourlyRow(raw: Payload, i: nat, time: DateTime): HourlyWeather {
    HourlyWeather(
      time := time,
      temperature2m := GetAt(raw, "temperature_2m", i),
      windSpeed10m := GetAt(raw, "wind_speed_10m", i),
      precipitation := GetAt(raw, "precipitation", i),
      weatherCode := GetAt(raw, "weather_code", i),
      isDay := GetAt(raw, "is_day", i))
  }

  function HourlyField(w: HourlyWeather, column: string): Option<Value> {
    if column == "temperature_2m" then w.temperature2m
    else if column == "wind_speed_10m" then w.windSpeed10m
    else if column == "precipitation" then w.precipitation
    else if column == "weather_code" then w.weatherCode
    else if column == "is_day" then w.isDay
    else None
  }

  /** What `parse_hourly_data` returns or raises for a payload. */
  function HourlyRecords(raw: Payload): Result<seq<HourlyWeather>, TimeError> {
    var times := TimeColumn(raw);
    RowsUpTo(raw, times, |times|, DateTimeOf, HourlyRow)
  }

  /** `parse_hourly_data`: one record per `time` entry, appended in order. */
  method ParseHourlyData(raw: Payload) returns (r: Result<seq<HourlyWeather>, TimeError>)
    ensures r == HourlyRecords(raw)
  {
    var times := TimeColumn(raw);
    if |times| == 0 {
      return Success([]);
    }
    var result: seq<HourlyWeather> := [];
    for i := 0 to |times|
      invariant RowsUpTo(raw, times, i, DateTimeOf, HourlyRow) == Success(result)
    {
      var time := DateTimeOf(times[i]);
      if time.Failure? {
        RowsUpToFailureStays(raw, times, i + 1, |times|, DateTimeOf, HourlyRow);
        return Failure(time.error);
      }
      result := result + [HourlyRow(raw, i, time.value)];
    }
    return Success(result);
  }

  lemma HourlyRowFields(raw: Payload, i: nat, time: DateTime)
    ensures HourlyRow(raw, i, time).time == time
    ensures forall c | c in HOURLY_COLUMNS :: HourlyField(HourlyRow(raw, i, time), c) == GetAt(raw, c, i)
  {
  }

  /** The hourly counterpart of DailyRecordsAligned, over the five hourly
      columns, with `time` parsed as a timestamp. */
  lemma HourlyRecordsAligned(raw: Payload)
    ensures var times, r := TimeColumn(raw), HourlyRecords(raw);
      && (r.Success? <==> forall i | 0 <= i < |times| :: DateTimeOf(times[i]).Success?)
      && (r.Success? ==> |r.value| == |times|)
      && (r.Success? ==> forall i | 0 <= i < |times| ::
            && r.value[i].time == DateTimeOf(times[i]).value
            && forall c | c in HOURLY_COLUMNS :: HourlyField(r.value[i], c) == GetAt(raw, c, i))
  {
    var times := TimeColumn(raw);
    RowsUpToShape(raw, times, |times|, DateTimeOf, HourlyRow);
    forall i | 0 <= i < |times| && DateTimeOf(times[i]).Success? {
      HourlyRowFields(raw, i, DateTimeOf(times[i]).value);
    }
  }

  lemma HourlyRecordsFailAtFirstBadTime(raw: Payload, k: nat)
    requires k < |TimeColumn(raw)| && DateTimeOf(TimeColumn(raw)[k]).Failure?
    ensures HourlyRecords(raw).Failure?
    ensures exists j | 0 <= j <= k :: FirstFailure(TimeColumn(raw), |TimeColumn(raw)|, DateTimeOf, j)
              && HourlyRecords(raw).error == DateTimeOf(TimeColumn(raw)[j]).error
  {
    var times := TimeColumn(raw);
    RowsUpToShape(raw, times, |times|, DateTimeOf, HourlyRow);
    var j :| 0 <= j < |times| && FirstFailure(times, |times|, DateTimeOf, j) && HourlyRecords(raw).error == DateTimeOf(times[j]).error;
    assert j <= k;
  }

  lemma HourlyRecordsEmpty(raw: Payload)
    requires TIME !in raw || raw[TIME].None? || raw[TIME].value == []
    ensures HourlyRecords(raw) == Success([])
  {
  }

  lemma HourlyColumnIndependent(raw: Payload, column: string, replacement: Column)
    requires column != TIME
    ensures var r, r' := HourlyRecords(raw), HourlyRecords(raw[column := replacement]);
      && r.Success? == r'.Success?
      && (r.Failure? ==> r' == r)
      && (r.Success? ==> |r'.value| == |r.value| && forall i | 0 <= i < |r.value| ::
            && r'.value[i].time == r.value[i].time
            && forall c | c in HOURLY_COLUMNS && c != column :: HourlyField(r'.value[i], c) == HourlyField(r.value[i], c))
  {
    var raw' := raw[column := replacement];
    assert TimeColumn(raw') == TimeColumn(raw);
    var times := TimeColumn(raw);
    RowsUpToSameKeys(raw, raw', times, |times|, DateTimeOf, HourlyRow, HourlyRow);
    HourlyRecordsAligned(raw);
    HourlyRecordsAligned(raw');
  }

  lemma HourlyShortColumn(raw: Payload, column: string, i: nat)
    requires column in HOURLY_COLUMNS && column in raw && raw[column].Some?
    requires HourlyRecords(raw).Success? && i < |HourlyRecords(raw).value|
    ensures i >= |raw[column].value| ==> HourlyField(HourlyRecords(raw).value[i], column) == None
    ensures i < |raw[column].value| ==> HourlyField(HourlyRecords(raw).value[i], column) == raw[column].value[i]
  {
    HourlyRecordsAligned(raw);
  }

  // ---------------------------------------------------------------------
  // Facts about the shared row builder used above

  /** Once a prefix fails, every longer prefix fails the same way. */
  lemma {:induction false} RowsUpToFailureStays<K, R, E>(raw: Payload, times: seq<Option<Value>>, m: nat, n: nat,
                                                         key: Option<Value> -> Result<K, E>,
                                                         row: (Payload, nat, K) -> R)
    requires m <= n <= |times|
    requires RowsUpTo(raw, times, m, key, row).Failure?
    ensures RowsUpTo(raw, times, n, key, row) == RowsUpTo(raw, times, m, key, row)
    decreases n - m
  {
    if m < n {
      RowsUpToFailureStays(raw, times, m, n - 1, key, row);
    }
  }

  /** Whether the builder fails, and with what, depends on the `time` entries
      only, not on the other columns or on how rows are made. */
  lemma {:induction false} RowsUpToSameKeys<K, R, E>(raw: Payload, raw': Payload, times: seq<Option<Value>>, n: nat,
                                                     key: Option<Value> -> Result<K, E>,
                                                     row: (Payload, nat, K) -> R, row': (Payload, nat, K) -> R)
    requires n <= |times|
    ensures RowsUpTo(raw, times, n, key, row).Success? == RowsUpTo(raw', times, n, key, row').Success?
    ensures RowsUpTo(raw, times, n, key, row).Failure? ==>
              RowsUpTo(raw', times, n, key, row') == RowsUpTo(raw, times, n, key, row)
  {
    if n > 0 {
      RowsUpToSameKeys(raw, raw', times, n - 1, key, row, row');
    }
  }

  // ---------------------------------------------------------------------
  // Requests

  datatype Param = TextParam(text: string) | IntParam(integer: int) | NumberParam(number: Float)

  /** An HTTP GET: endpoint and query parameters. */
  datatype Request = Request(url: string, params: map<string, Param>)

  function GeocodeRequest(cityName: string): Request {
    Request(GEOCODING_URL, map["name" := TextParam(cityName), "count" := IntParam(1), "language" := TextParam("en")])
  }

  function ForecastRequest(latitude: Float, longitude: Float, timezone: string, forecastDays: int): Request {
    Request(FORECAST_URL, map[
      "latitude" := NumberParam(latitude),
      "longitude" := NumberParam(longitude),
      "timezone" := TextParam(timezone),
      "daily" := TextParam(DAILY_PARAMS),
      "hourly" := TextParam(HOURLY_PARAMS),
      "forecast_days" := IntParam(forecastDays)])
  }

  function ArchiveRequest(latitude: Float, longitude: Float, timezone: string, startDate: Date, endDate: Date): Request
    requires ValidDate(startDate) && ValidDate(endDate)
  {
    Request(ARCHIVE_URL, map[
      "latitude" := NumberParam(latitude),
      "longitude" := NumberParam(longitude),
      "timezone" := TextParam(timezone),
      "daily" := TextParam(DAILY_PARAMS),
      "hourly" := TextParam(HOURLY_PARAMS),
      "start_date" := TextParam(FormatDate(startDate)),
      "end_date" := TextParam(FormatDate(endDate))])
  }

  /** The geocoding query asks for one English-language match for the name. */
  lemma GeocodeRequestParams(cityName: string)
    ensures var q := GeocodeRequest(cityName);
      && q.url == GEOCODING_URL && q.params.Keys == {"name", "count", "language"}
      && q.params["name"] == TextParam(cityName) && q.params["count"] == IntParam(1)
      && q.params["language"] == TextParam("en")
  {
  }

  /** The forecast query forwards coordinates, timezone and day count
      unchanged, whatever the day count is (no range check). */
  lemma ForecastRequestParams(latitude: Float, longitude: Float, timezone: string, forecastDays: int)
    ensures var q := ForecastRequest(latitude, longitude, timezone, forecastDays);
      && q.url == FORECAST_URL
      && q.params.Keys == {"latitude", "longitude", "timezone", "daily", "hourly", "forecast_days"}
      && q.params["latitude"] == NumberParam(latitude) && q.params["longitude"] == NumberParam(longitude)
      && q.params["timezone"] == TextParam(timezone) && q.params["forecast_days"] == IntParam(forecastDays)
      && q.params["daily"] == TextParam(DAILY_PARAMS) && q.params["hourly"] == TextParam(HOURLY_PARAMS)
  {
  }

  /** The archive query carries both dates as ISO strings, which parse back to
      exactly the requested dates. */
  lemma ArchiveRequestDates(latitude: Float, longitude: Float, timezone: string, startDate: Date, endDate: Date)
    requires ValidDate(startDate) && ValidDate(endDate)
    ensures var q := ArchiveRequest(latitude, longitude, timezone, startDate, endDate);
      && q.url == ARCHIVE_URL
      && q.params["start_date"].TextParam? && ParseDate(q.params["start_date"].text) == Success(startDate)
      && q.params["end_date"].TextParam? && ParseDate(q.params["end_date"].text) == Success(endDate)
  {
    ParseFormatDate(startDate);
    ParseFormatDate(endDate);
  }

  /** January 2024 is sent as "2024-01-01" and "2024-01-31". */
  lemma ArchiveRequestJanuary2024(latitude: Float, longitude: Float, timezone: string)
    ensures var q := ArchiveRequest(latitude, longitude, timezone, Date(2024, 1, 1), Date(2024, 1, 31));
      q.params["start_date"] == TextParam("2024-01-01") && q.params["end_date"] == TextParam("2024-01-31")
  {
    FormatJanuary1();
    FormatJanuary31();
  }

  // ---------------------------------------------------------------------
  // Geocoding

  /** One geocoding candidate; each field is `None` when the key is absent
      (for `country`, also when it is null). */
  datatype Candidate = Candidate(
    latitude: Option<Float>,
    longitude: Option<Float>,
    timezone: Option<string>,
    name: Option<string>,
    country: Option<string>)

  /** The geocoding body; `results` is `None` when the key is absent or null. */
  datatype GeocodeBody = GeocodeBody(results: Option<seq<Candidate>>)

  /** `r[key]`: the value, or a `KeyError` naming the key. */
  function Require<T>(field: Option<T>, key: string): (r: Result<T, ServiceError>)
    ensures r.Success? <==> field.Some?
    ensures r.Success? ==> r.value == field.value
    ensures r.Failure? ==> r.error == MissingKey(key)
  {
    if field.Some? then Success(field.value) else Failure(MissingKey(key))
  }

  /** The decision `geocode` makes on a body: not found when `results` is
      missing or empty, otherwise the first candidate with timezone defaulting
      to "UTC" and country passed through. */
  function LocationOf(body: GeocodeBody): (r: Result<Option<GeoLocation>, ServiceError>)
    ensures r == Success(None) <==> body.results.None? || body.results.value == []
    ensures body.results.Some? && body.results.value != [] ==>
      var c := body.results.value[0];
      && (r.Success? <==> c.latitude.Some? && c.longitude.Some? && c.name.Some?)
      && (r.Success? ==>
            && r.value.Some?
            && r.value.value.latitude == c.latitude.value && r.value.value.longitude == c.longitude.value
            && r.value.value.timezone == (if c.timezone.Some? then c.timezone.value else "UTC")
            && r.value.value.name == c.name.value && r.value.value.country == c.country)
      && (r.Failure? ==> r.error == MissingKey(
            if c.latitude.None? then "latitude" else if c.longitude.None? then "longitude" else "name"))
  {
    if body.results.None? || body.results.value == [] then Success(None)
    else
      var c := body.results.value[0];
      var latitude :- Require(c.latitude, "latitude");
      var longitude :- Require(c.longitude, "longitude");
      var timezone := c.timezone.GetOr("UTC");
      var name :- Require(c.name, "name");
      Success(Some(GeoLocation(latitude, longitude, timezone, name, c.country)))
  }

  /** Candidates after the first never matter. */
  lemma LocationOfUsesFirstCandidate(first: Candidate, rest: seq<Candidate>)
    ensures LocationOf(GeocodeBody(Some([first] + rest))) == LocationOf(GeocodeBody(Some([first])))
  {
    assert ([first] + rest)[0] == first;
  }

  /** The Copenhagen answer becomes a location with exactly its five fields. */
  lemma LocationOfCopenhagen()
    ensures LocationOf(GeocodeBody(Some([Candidate(Some(55.6761), Some(12.5683), Some("Europe/Copenhagen"), Some("Copenhagen"), Some("Denmark"))])))
      == Success(Some(GeoLocation(55.6761, 12.5683, "Europe/Copenhagen", "Copenhagen", Some("Denmark"))))
  {
  }

  /** `geocode`: a transport failure is an error, an answer without candidates
      is "not found" (`None`), never an error. */
  function Geocode(fetch: Request -> Result<GeocodeBody, TransportError>, cityName: string): (r: Result<Option<GeoLocation>, ServiceError>)
    ensures var reply := fetch(GeocodeRequest(cityName));
      && (r.Failure? && r.error.Transport? <==> reply.Failure?)
      && (r == Success(None) <==> reply.Success? && (reply.value.results.None? || reply.value.results.value == []))
      && (reply.Success? ==> r == LocationOf(reply.value))
  {
    var body :- fetch(GeocodeRequest(cityName)).MapFailure(e => Transport(e));
    LocationOf(body)
  }

  // ---------------------------------------------------------------------
  // Forecast and archive responses

  /** A forecast or archive body; each field is `None` when the key is absent. */
  datatype ForecastBody = ForecastBody(
    latitude: Option<Float>,
    longitude: Option<Float>,
    timezone: Option<string>,
    daily: Option<Payload>,
    hourly: Option<Payload>)

  /** The `WeatherResponse(...)` built from a body: coordinates are required,
      the timezone falls back to the requested one, a missing section parses
      as an empty payload. Python evaluates the arguments left to right, so the
      error is the first of: no latitude, no longitude, a bad daily time, a bad
      hourly time. */
  function AssembleResponse(body: ForecastBody, timezone: string): (r: Result<WeatherResponse, ServiceError>)
    ensures var daily, hourly := DailyRecords(body.daily.GetOr(map[])), HourlyRecords(body.hourly.GetOr(map[]));
      && (r.Success? <==> body.latitude.Some? && body.longitude.Some? && daily.Success? && hourly.Success?)
      && (r.Success? ==>
            && r.value.latitude == body.latitude.value && r.value.longitude == body.longitude.value
            && r.value.timezone == (if body.timezone.Some? then body.timezone.value else timezone)
            && r.value.daily == daily.value && r.value.hourly == hourly.value)
      && (r.Failure? ==>
            r.error ==
            if body.latitude.None? then MissingKey("latitude")
            else if body.longitude.None? then MissingKey("longitude")
            else if daily.Failure? then BadTime(daily.error)
            else BadTime(hourly.error))
  {
    var latitude :- Require(body.latitude, "latitude");
    var longitude :- Require(body.longitude, "longitude");
    var zone := body.timezone.GetOr(timezone);
    var daily :- DailyRecords(body.daily.GetOr(map[])).MapFailure(e => BadTime(e));
    var hourly :- HourlyRecords(body.hourly.GetOr(map[])).MapFailure(e => BadTime(e));
    Success(WeatherResponse(latitude, longitude, zone, daily, hourly))
  }

  /** Absent `daily` and `hourly` sections give empty lists, not an error. */
  lemma AssembleResponseWithoutSections(body: ForecastBody, timezone: string)
    requires body.latitude.Some? && body.longitude.Some? && body.daily.None? && body.hourly.None?
    ensures AssembleResponse(body, timezone)
      == Success(WeatherResponse(body.latitude.value, body.longitude.value, body.timezone.GetOr(timezone)))
  {
    DailyRecordsEmpty(map[]);
    HourlyRecordsEmpty(map[]);
  }

  /** `get_forecast`: one request to the forecast endpoint, then assembly. */
  function GetForecast(fetch: Request -> Result<ForecastBody, TransportError>,
                       latitude: Float, longitude: Float, timezone: string, forecastDays: int := 7): (r: Result<WeatherResponse, ServiceError>)
    ensures var reply := fetch(ForecastRequest(latitude, longitude, timezone, forecastDays));
      && (r.Failure? && r.error.Transport? <==> reply.Failure?)
      && (reply.Success? ==> r == AssembleResponse(reply.value, timezone))
  {
    var body :- fetch(ForecastRequest(latitude, longitude, timezone, forecastDays)).MapFailure(e => Transport(e));
    AssembleResponse(body, timezone)
  }

  /** `get_historical_weather`: one request to the archive endpoint, then
      assembly. Dates are Python `date` objects, hence valid. */
  function GetHistoricalWeather(fetch: Request -> Result<ForecastBody, TransportError>,
                                latitude: Float, longitude: Float, timezone: string,
                                startDate: Date, endDate: Date): (r: Result<WeatherResponse, ServiceError>)
    requires ValidDate(startDate) && ValidDate(endDate)
    ensures var reply := fetch(ArchiveRequest(latitude, longitude, timezone, startDate, endDate));
      && (r.Failure? && r.error.Transport? <==> reply.Failure?)
      && (reply.Success? ==> r == AssembleResponse(reply.value, timezone))
  {
    var body :- fetch(ArchiveRequest(latitude, longitude, timezone, startDate, endDate)).MapFailure(e => Transport(e));
    AssembleResponse(body, timezone)
  }
}
