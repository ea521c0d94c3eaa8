# Open-Meteo response shaping in the weather chatbot

This project models the layer of the weather chatbot that sits between the
assistant's tools and the Open-Meteo HTTP APIs. The layer has four parts:

- **Column-to-row transform.** The columnar `daily` and `hourly` sections of a
  forecast or archive response become ordered lists of day and hour records.
  Values are taken by index from each column, and a missing, null or short
  column gives an absent value, never an error.
- **Requests.** The geocoding, forecast and archive queries the service sends,
  with the fixed column lists and the ISO dates.
- **Bodies.** How a geocoding or forecast body becomes a location or a
  `WeatherResponse`: "not found", key errors, and the timezone fallbacks.
- **Tools.** The three tools the assistant calls: location lookup, forecast,
  and history. The history tool parses both date strings before any request
  is made.

Modules:

- `Wrappers`: `Option` and `Result`.
- `IsoDate`: proleptic Gregorian dates and minute timestamps. It holds the
  strict `YYYY-MM-DD` / `YYYY-MM-DDTHH:MM` parsers standing for
  `date.fromisoformat` / `datetime.fromisoformat`. For dates there is
  `date.isoformat()`, and for timestamps the canonical writer the parser
  inverts. Round-trip lemmas are proved in both directions.
- `Models`: the records of `src/models.py`. Python's field defaults are
  constructor defaults.
- `Columnar`: the payload representation, `_get_at`, and the row builder that
  both parsers share, with its shape lemma.
- `WeatherService`: `src/weather_service.py`. The two parsing loops are
  methods proved equal to the specification functions `DailyRecords` and
  `HourlyRecords`. Requests, geocoding and response assembly are functions of
  a `fetch` parameter that stands for the HTTP exchange.
- `Tools`: `src/tools.py`.

How JSON is represented:

- A scalar is `Number(real)` or `Text(string)`.
- A column element is `Option<Value>`, where `None` is JSON null.
- A column is `Option<seq<Option<Value>>>`, where `None` is a key holding null.
  A key that is absent is simply not in the payload map.
- A decoded body is a record whose `Option` fields say whether each key is
  present, so Python's `KeyError` paths become `MissingKey` errors.
- The ways a `time` entry can fail are errors too: not a string
  (`TypeError`), malformed or out of range (`ValueError`).

The forecast tool's docstring (src/tools.py:39 and :46) documents 1 to 16
days, but `get_forecast` and `get_weather_forecast` send whatever count they
are given; the model follows the code.

## Model

| member | source | states |
|---|---|---|
| Models.GeoLocationDefaults | src/models.py:9-16 | country defaults to absent; the other four fields and a given country are stored as given |
| Models.DailyWeatherDefaults | src/models.py:19-31 | only the date is required; all nine measurements default to absent, and a given measurement lands in its own field only |
| Models.HourlyWeatherDefaults | src/models.py:34-42 | only the time is required; all five measurements default to absent |
| Models.WeatherResponseDefaults | src/models.py:45-52 | daily and hourly default to empty lists; coordinates and timezone are stored as given |
| IsoDate.ParseDate | src/weather_service.py:117 | an accepted string names a valid calendar date (years 1-9999, real month lengths, leap years); a refusal is "invalid format" exactly when the string is not YYYY-MM-DD, otherwise "out of range" |
| IsoDate.ParseFormatDate | src/weather_service.py:91-92 | parsing the ISO form of a valid date gives that date back |
| IsoDate.FormatParseDate | src/tools.py:73-74 | an accepted date string is exactly the ISO form of the date it denotes |
| IsoDate.ParseDateTime | src/weather_service.py:142 | an accepted timestamp is a valid date with hour < 24 and minute < 60; the error distinguishes shape from range |
| IsoDate.ParseFormatDateTime | src/weather_service.py:142 | parsing the canonical `YYYY-MM-DDTHH:MM` spelling of a valid timestamp gives it back |
| IsoDate.FormatParseDateTime | src/weather_service.py:142 | an accepted timestamp string is exactly the canonical spelling of what it denotes |
| IsoDate.DaysInMonth | src/weather_service.py:117 | every month has 28 to 31 days, and 29 exactly for February of a leap year |
| Columnar.GetAt | src/weather_service.py:153-158 | an entry is present exactly when the column is in the payload, not null, long enough and non-null at the index, and is then that entry; otherwise absent, never an error |
| Columnar.TimeColumn | src/weather_service.py:109-111 | an absent or null `time` key reads as no entries, otherwise as the column |
| Columnar.RowsUpToShape | src/weather_service.py:113-129 | the row builder succeeds exactly when every key entry parses, and then has one row per entry in order, row k built from entry k; otherwise it fails with the error of the first entry that does not parse |
| WeatherService.DailyParamsAreDailyColumns | src/weather_service.py:14-18 | the `daily` query parameter is the nine daily column names joined by commas, in order |
| WeatherService.HourlyParamsAreHourlyColumns | src/weather_service.py:20 | the `hourly` query parameter is the five hourly column names joined by commas |
| WeatherService.DateOf | src/weather_service.py:117 | a `time` entry becomes a date exactly when it is a string the date parser accepts; a string is refused with the parser's own error |
| WeatherService.ParseDailyData | src/weather_service.py:107-129 | the loop's result is exactly `DailyRecords(raw)`, including the early failure on the first bad date |
| WeatherService.DailyRowFields | src/weather_service.py:116-127 | a day record carries its date, and for every daily column the `_get_at` value of that column at its index |
| WeatherService.DailyRecordsAligned | src/weather_service.py:107-129 | the parse succeeds exactly when every `time` entry is a date; then it yields one record per entry, record i has date i and entry i of every daily column (absent when the column is missing, null or short) |
| WeatherService.DailyRecordsFailAtFirstBadTime | src/weather_service.py:114-117 | one bad `time` entry fails the whole parse, with the error of the first bad entry at or before it; no partial list |
| WeatherService.DailyRecordsEmpty | src/weather_service.py:109-111 | an absent, null or empty `time` column gives the empty list |
| WeatherService.DailyColumnIndependent | src/weather_service.py:118-126 | replacing one measurement column changes neither success, nor the error, nor the count, nor the dates, nor any other field |
| WeatherService.DailyShortColumn | src/weather_service.py:156-158 | a column shorter than `time` leaves exactly its missing tail absent and keeps its own entries elsewhere |
| WeatherService.DailyRecordsTwoDays | src/weather_service.py:107-129 | two dates and one maximum-temperature column give two records in order, each with its own maximum and every other field absent |
| WeatherService.DateTimeOf | src/weather_service.py:142 | a `time` entry becomes a timestamp exactly when it is a string the timestamp parser accepts |
| WeatherService.ParseHourlyData | src/weather_service.py:132-150 | the loop's result is exactly `HourlyRecords(raw)`, including the early failure on the first bad timestamp |
| WeatherService.HourlyRowFields | src/weather_service.py:141-148 | an hour record carries its time and, for every hourly column, the `_get_at` value at its index |
| WeatherService.HourlyRecordsAligned | src/weather_service.py:132-150 | the hourly counterpart of the daily alignment: success iff every entry is a timestamp, one record per entry, fields by index |
| WeatherService.HourlyRecordsFailAtFirstBadTime | src/weather_service.py:139-142 | one bad timestamp fails the whole parse with the first bad entry's error |
| WeatherService.HourlyRecordsEmpty | src/weather_service.py:134-136 | an absent, null or empty `time` column gives the empty list |
| WeatherService.HourlyColumnIndependent | src/weather_service.py:143-147 | replacing one hourly column leaves success, errors, count, times and all other fields unchanged |
| WeatherService.HourlyShortColumn | src/weather_service.py:156-158 | a short hourly column leaves exactly its missing tail absent |
| WeatherService.RowsUpToFailureStays | src/weather_service.py:114-117 | once the loop has failed at some entry, later entries do not change the outcome |
| WeatherService.RowsUpToSameKeys | src/weather_service.py:114-117 | whether the loop fails, and with which error, depends only on the `time` entries |
| WeatherService.GeocodeRequestParams | src/weather_service.py:25 | the geocoding query goes to the search endpoint with exactly name, count 1 and language "en" |
| WeatherService.ForecastRequestParams | src/weather_service.py:51-60 | the forecast query carries exactly coordinates, timezone, both column lists and the day count, unchanged and unchecked |
| WeatherService.ArchiveRequestDates | src/weather_service.py:83-93 | the archive query carries both dates as ISO strings that parse back to exactly those dates |
| WeatherService.ArchiveRequestJanuary2024 | src/weather_service.py:91-92 | January 2024 is sent as "2024-01-01" and "2024-01-31" |
| WeatherService.Require | src/weather_service.py:35-38 | a present key yields its value, an absent one a `KeyError` naming it |
| WeatherService.LocationOf | src/weather_service.py:29-40 | not found exactly when `results` is missing or empty; otherwise the first candidate's fields, timezone defaulting to "UTC", country passed through, and the first missing key of latitude, longitude, name reported |
| WeatherService.LocationOfUsesFirstCandidate | src/weather_service.py:33 | candidates after the first never influence the result |
| WeatherService.LocationOfCopenhagen | src/weather_service.py:29-40 | the Copenhagen answer becomes exactly the Copenhagen location |
| WeatherService.Geocode | src/weather_service.py:23-40 | a transport failure is an error exactly when the request fails; "not found" exactly when the answer has no candidates, never an error |
| WeatherService.AssembleResponse | src/weather_service.py:65-71 | success exactly when both coordinates are present and both sections parse; fields as in the body, timezone falling back to the requested one, sections parsed as empty when absent; errors in Python's argument order |
| WeatherService.AssembleResponseWithoutSections | src/weather_service.py:69-70 | a body without daily and hourly sections gives empty lists, not an error |
| WeatherService.GetForecast | src/weather_service.py:43-71 | one forecast request; a transport error exactly when it fails, otherwise the assembled response |
| WeatherService.GetHistoricalWeather | src/weather_service.py:74-104 | one archive request; a transport error exactly when it fails, otherwise the assembled response |
| Tools.LocationDumpRoundTrip | src/tools.py:26 | the dumped location reads back as the same location |
| Tools.GetLocationCoordinates | src/tools.py:13-26 | errors of the service propagate unchanged; "not found" gives a reply with only the `error` key and the fixed message; a found location gives exactly its five fields, which read back to it |
| Tools.GetWeatherForecast | src/tools.py:29-49 | the forecast service with the arguments as given: a transport error exactly when the request fails, otherwise the assembled response |
| Tools.ForecastToolDays | src/tools.py:35 | without a day count the tool asks for seven days; any other count is sent unchanged |
| Tools.GetHistoricalWeatherData | src/tools.py:52-76 | fails with a date error exactly when either string is not a date; the start date's error wins; otherwise the result of the archive service on the parsed dates, its errors wrapped as service failures |
| Tools.HistoryToolBadDateSkipsService | src/tools.py:73-75 | with a bad date string the outcome does not depend on the transport at all |
| Tools.HistoryToolSendsGivenDates | src/tools.py:73-75 | with good date strings the archive receives exactly those strings, and the tool's reply is the assembled response, the wrapped transport error, or the wrapped assembly error |
| Tools.HistoryToolRejectsPlaceholder | src/tools.py:73 | the string "a" is refused as an invalid ISO date before any request |

## Left out

- HTTP, JSON decoding and `raise_for_status` are not modelled. The exchange is the `fetch` parameter, and a transport failure is an abstract `TransportError`.
- The agent (`src/agent.py`), the web app (`src/web.py`) and the dependency holder (`src/deps.py`) are not part of this model. Neither are the topic guard, the classifier middleware with its fail-open rule, or the output validation with bounded retry.
- Pydantic validation and coercion of field types are not modelled. Measurements are copied as JSON scalars, and the declared `float`/`int`/`str` type of each field is not enforced.
- `model_dump(mode="json")` of a `WeatherResponse` in the forecast and history tools is not modelled; the tools return the response record itself. Only the location reply of `get_location_coordinates` is modelled as a dictionary.
- Floating-point numbers are modelled as reals. Coordinates and measurements are only copied, never computed on.
- Some JSON shapes are not representable:
  - a null `daily` or `hourly` key (Python would raise when it calls `.get` on it);
  - a null forecast-body `timezone`: `data.get("timezone", timezone)` then gives `None` and the `WeatherResponse` validation raises, while the model falls back to the requested timezone;
  - a null candidate `timezone` or `name`, which the `GeoLocation` validation would refuse;
  - a non-array column value;
  - a value of the wrong kind in a coordinate.
- IsoDate.ParseDateTime: accepts only `YYYY-MM-DDTHH:MM`. CPython's `datetime.fromisoformat` also accepts any single separator character, seconds, fractions and offsets. IsoDate.ParseDate likewise leaves out the basic (`YYYYMMDD`) and ISO-week forms that newer CPython versions accept. The API sends only the extended forms.
- WeatherService.GetHistoricalWeather: requires valid dates, because its Python arguments are `date` objects, which cannot hold an invalid date.
- Tools.GetHistoricalWeatherData: the order of start and end date, and the archive's availability window, are not checked, as in the source.
